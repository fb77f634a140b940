/**
 * Finding things on the tape (message/tape.rs): stepping over a block's children by their spans,
 * from its start or from a hint.
 */
module Lookup {
  import opened Tape
  import opened Document
  import opened Editing

  /** A test of an entry that a field's or a group's place in the tree has no part in. */
  type Test = (nat, Kind) -> bool

  function HasTag(tag: nat): Test {
    (t, k: Kind) => t == tag && !k.Gap? && !k.Instance?
  }

  /** The first sibling from `i` that passes, or where the walk ends. */
  function Seek(tape: seq<Entry>, i: nat, end: nat, f: Test): (k: nat)
    requires end <= |tape|
    ensures i <= k
    ensures k < end ==> f(tape[k].tag, tape[k].kind)
    decreases end - i
  {
    if i >= end then i
    else if f(tape[i].tag, tape[i].kind) then i
    else Seek(tape, i + tape[i].Span(), end, f)
  }

  /** The first of these nodes that passes; their number if none does. */
  function First(ns: seq<Node>, f: Test): (k: nat)
    ensures k <= |ns|
    ensures k < |ns| ==> f(ns[k].entry.tag, ns[k].entry.kind)
    ensures forall i :: 0 <= i < k ==> !f(ns[i].entry.tag, ns[i].entry.kind)
  {
    if ns == [] || f(ns[0].entry.tag, ns[0].entry.kind) then 0 else 1 + First(ns[1..], f)
  }

  predicate AllLeafy(ns: seq<Node>) {
    forall i :: 0 <= i < |ns| ==> Leafy(ns[i])
  }

  /** No gap's entry, and no unused slot, passes. */
  ghost predicate SkipsGaps(f: Test) {
    forall t :: !f(t, Gap)
  }

  lemma {:induction false} HeadTag(n: Node, depth: nat)
    ensures n.entry.kind.Gap? || Head(n, depth).tag == n.entry.tag
  {
  }

  predicate Passes(f: Test, n: Node) {
    f(n.entry.tag, n.entry.kind)
  }

  /** Walking the entries of a block finds what walking its nodes finds. */
  lemma {:induction false} SeekBlock(doc: Doc, r: Region, p: Path, i: nat, j: nat, f: Test)
    requires IsBlock(doc, r, p) && i <= j <= |Block(Part(doc, r), p)|
    requires AllLeafy(Block(Part(doc, r), p)) && SkipsGaps(f)
    ensures At(doc, r, p, j) <= |ImageOf(doc).tape|
    ensures i + First(Block(Part(doc, r), p)[i..j], f) <= j
    ensures Seek(ImageOf(doc).tape, At(doc, r, p, i), At(doc, r, p, j), f)
            == At(doc, r, p, i + First(Block(Part(doc, r), p)[i..j], f))
    decreases j - i
  {
    hide ImageOf, At, Head, Part, Seek, First, Spanned, ValidPath, Leafy, Depth, Block;
    var block, tape := Block(Part(doc, r), p), ImageOf(doc).tape;
    AtWithin(doc, r, p, j);
    if i < j {
      EntryAt(doc, r, p, i);
      HeadKind(block[i], Depth(doc, r, p));
      HeadTag(block[i], Depth(doc, r, p));
      SpanIsSize(block[i], Depth(doc, r, p));
      AtOrdered(doc, r, p, i, j);
      SeekStep(tape, At(doc, r, p, i), At(doc, r, p, j), f);
      FirstStep(block, i, j, f);
      SeekBlock(doc, r, p, i + 1, j, f);
    } else {
      SeekStep(tape, At(doc, r, p, i), At(doc, r, p, j), f);
      FirstStep(block, i, j, f);
    }
  }

  lemma {:induction false} SeekStep(tape: seq<Entry>, i: nat, end: nat, f: Test)
    requires end <= |tape|
    ensures Seek(tape, i, end, f)
            == if i >= end || f(tape[i].tag, tape[i].kind) then i else Seek(tape, i + tape[i].Span(), end, f)
  {
  }

  lemma {:induction false} FirstStep(ns: seq<Node>, i: nat, j: nat, f: Test)
    requires i <= j <= |ns|
    ensures First(ns[i..j], f)
            == if i == j || f(ns[i].entry.tag, ns[i].entry.kind) then 0 else 1 + First(ns[i + 1..j], f)
  {
    if i < j {
      assert ns[i..j][1..] == ns[i + 1..j];
    }
  }

  lemma {:induction false} AtOrdered(doc: Doc, r: Region, p: Path, i: nat, j: nat)
    requires IsBlock(doc, r, p) && i <= j <= |Block(Part(doc, r), p)|
    ensures At(doc, r, p, i) <= At(doc, r, p, j)
    ensures i < j ==> At(doc, r, p, i) < At(doc, r, p, j)
  {
    var block := Block(Part(doc, r), p);
    hide Block, Offset;
    assert block[..j] == block[..i] + block[i..j];
    SizeAppend(block[..i], block[i..j]);
  }

  // ---------------------------------------------------------------------
  // Looking a tag up, with or without a hint
  // ---------------------------------------------------------------------

  function Scanned(tape: seq<Entry>, i: nat, end: nat, tag: nat): Option<nat>
    requires end <= |tape|
  {
    var k := Seek(tape, i, end, HasTag(tag));
    if k < end then Some(k) else None
  }

  /** Whether an entry has the depth of a child of the block, and is not an instance. */
  predicate IsBoundary(tape: seq<Entry>, i: nat, depth: nat)
    requires i < |tape|
  {
    tape[i].depth == depth && !tape[i].kind.Instance?
  }

  /** Where a search starts: at the hint, if it could be a child of this block; otherwise at the start. */
  function StartFrom(tape: seq<Entry>, start: nat, end: nat, depth: nat, from: Option<nat>): (i: nat)
    requires end <= |tape|
    ensures i == start || start < i < end
  {
    if from.Some? && start < from.value < end && IsBoundary(tape, from.value, depth) then from.value else start
  }

  /** The search: from there to the end, then round from the start. */
  function Found(tape: seq<Entry>, start: nat, end: nat, depth: nat, tag: nat, from: Option<nat>): Option<nat>
    requires end <= |tape|
  {
    var i := StartFrom(tape, start, end, depth, from);
    var ahead := Scanned(tape, i, end, tag);
    if ahead.Some? || i == start then ahead else Scanned(tape, start, i, tag)
  }

  /** Nothing below these nodes is a gap. */
  predicate Solid(ns: seq<Node>) {
    forall i :: 0 <= i < |ns| ==> !ns[i].entry.kind.Gap? && Solid(ns[i].kids)
  }

  /** The children of a region or an instance: fields, groups of solid instances, and gaps. */
  predicate FieldBlock(ns: seq<Node>) {
    forall i :: 0 <= i < |ns| ==> Leafy(ns[i]) && !ns[i].entry.kind.Instance? && Solid(ns[i].kids)
  }

  /** Everything below a level is at least that deep. */
  lemma {:induction false} SolidDepth(ns: seq<Node>, depth: nat)
    requires Solid(ns)
    ensures forall i :: 0 <= i < Size(ns) ==> Flat(ns, depth)[i].depth >= depth
  {
    if ns != [] {
      var n, d := ns[0], KidDepth(ns[0], depth);
      assert forall i :: 0 <= i < |ns[1..]| ==> ns[1..][i] == ns[i + 1];
      SolidDepth(n.kids, d);
      SolidDepth(ns[1..], depth);
      var a, b, c := Head(n, depth), Flat(n.kids, d), Flat(ns[1..], depth);
      assert a.depth == depth;
      hide Flat, Head;
      assert forall i :: 0 <= i < |[a] + b + c| ==> ([a] + b + c)[i].depth >= depth;
    }
  }

  /** The nodes of a block cover its entries. */
  lemma {:induction false} Covered(doc: Doc, r: Region, p: Path, j: nat, f: nat) returns (k: nat)
    requires IsBlock(doc, r, p) && j <= |Block(Part(doc, r), p)|
    requires At(doc, r, p, 0) <= f < At(doc, r, p, j)
    ensures k < j && At(doc, r, p, k) <= f < At(doc, r, p, k + 1)
    decreases j
  {
    if At(doc, r, p, j - 1) <= f {
      k := j - 1;
    } else {
      k := Covered(doc, r, p, j - 1, f);
    }
  }

  /** What is below a node of a block. */
  lemma {:induction false} BelowAt(doc: Doc, r: Region, p: Path, k: nat, m: nat)
    requires IsBlock(doc, r, p) && k < |Block(Part(doc, r), p)|
    requires var n := Block(Part(doc, r), p)[k]; !n.entry.kind.Gap? && m < Size(n.kids)
    ensures var n := Block(Part(doc, r), p)[k];
            && At(doc, r, p, k) + 1 + m < |ImageOf(doc).tape|
            && ImageOf(doc).tape[At(doc, r, p, k) + 1 + m] == Flat(n.kids, KidDepth(n, Depth(doc, r, p)))[m]
  {
    var block := Block(Part(doc, r), p);
    hide ImageOf, Flat, Block, Size, Part, At, Depth;
    AtIs(doc, r, p, k);
    Below(block, k, m, Depth(doc, r, p));
    BlockEntry(doc, r, p, Size(block[..k]) + 1 + m);
  }

  /** The unused slots of a gap. */
  lemma {:induction false} GapUnused(n: Node, depth: nat, m: nat)
    requires n.entry.kind.Gap? && 1 <= m < NodeSize(n)
    ensures FlatNode(n, depth)[m] == UNUSED
  {
    assert FlatNode(n, depth)[m] == Unused(NodeSize(n) - 1)[m - 1];
  }

  lemma {:induction false} SlotAt(doc: Doc, r: Region, p: Path, k: nat, m: nat)
    requires IsBlock(doc, r, p) && k < |Block(Part(doc, r), p)|
    requires var n := Block(Part(doc, r), p)[k]; n.entry.kind.Gap? && 1 <= m < NodeSize(n)
    ensures At(doc, r, p, k) + m < |ImageOf(doc).tape|
    ensures ImageOf(doc).tape[At(doc, r, p, k) + m] == UNUSED
  {
    hide ImageOf, Flat, FlatNode, Block, Size, Part, At, Depth;
    var block, d := Block(Part(doc, r), p), Depth(doc, r, p);
    GapUnused(block[k], d, m);
    AtIs(doc, r, p, k);
    FlatAround(block, k, d);
    Between(Flat(block[..k], d), FlatNode(block[k], d), Flat(block[k + 1..], d), m);
    BlockEntry(doc, r, p, Size(block[..k]) + m);
  }

  /** A hint that is taken is a child of this block, or a slot of a gap in it. */
  lemma {:induction false} Taken(doc: Doc, r: Region, p: Path, f: nat) returns (k: nat)
    requires IsBlock(doc, r, p) && FieldBlock(Block(Part(doc, r), p))
    requires At(doc, r, p, 0) <= f < At(doc, r, p, |Block(Part(doc, r), p)|)
    requires f < |ImageOf(doc).tape| && IsBoundary(ImageOf(doc).tape, f, Depth(doc, r, p))
    ensures k < |Block(Part(doc, r), p)| && At(doc, r, p, k) <= f < At(doc, r, p, k + 1)
    ensures f == At(doc, r, p, k) || Block(Part(doc, r), p)[k].entry.kind.Gap?
  {
    var block := Block(Part(doc, r), p);
    k := Covered(doc, r, p, |block|, f);
    EntryAt(doc, r, p, k);
    var n := block[k];
    if f != At(doc, r, p, k) && !n.entry.kind.Gap? {
      BelowAt(doc, r, p, k, f - At(doc, r, p, k) - 1);
      SolidDepth(n.kids, KidDepth(n, Depth(doc, r, p)));
    }
  }

  /** A search that stops sooner finds the same, if it gets that far. */
  lemma {:induction false} SeekShorter(tape: seq<Entry>, i: nat, end: nat, end': nat, f: Test)
    requires end' <= end <= |tape|
    ensures var k, k' := Seek(tape, i, end, f), Seek(tape, i, end', f);
            if k < end' then k' == k else k' >= end'
    decreases end' - i
  {
    if i < end' && !f(tape[i].tag, tape[i].kind) {
      SeekShorter(tape, i + tape[i].Span(), end, end', f);
    }
  }

  /** A search from a slot of a gap goes on behind the gap. */
  lemma {:induction false} SeekSlots(doc: Doc, r: Region, p: Path, k: nat, i: nat, end: nat, f: Test)
    requires IsBlock(doc, r, p) && k < |Block(Part(doc, r), p)| && SkipsGaps(f)
    requires Block(Part(doc, r), p)[k].entry.kind.Gap?
    requires At(doc, r, p, k) < i <= At(doc, r, p, k + 1) <= end <= |ImageOf(doc).tape|
    ensures Seek(ImageOf(doc).tape, i, end, f) == Seek(ImageOf(doc).tape, At(doc, r, p, k + 1), end, f)
    decreases end - i
  {
    hide ImageOf, At, Part, Block, Seek;
    if i < At(doc, r, p, k + 1) {
      EntryAt(doc, r, p, k);
      SlotAt(doc, r, p, k, i - At(doc, r, p, k));
      SeekStep(ImageOf(doc).tape, i, end, f);
      SeekSlots(doc, r, p, k, i + 1, end, f);
    }
  }

  /** A block's range and depth, as a search takes them. */
  function FoundIn(doc: Doc, r: Region, p: Path, tag: nat, from: Option<nat>): Option<nat>
    requires IsBlock(doc, r, p) && At(doc, r, p, |Block(Part(doc, r), p)|) <= |ImageOf(doc).tape|
  {
    Found(ImageOf(doc).tape, At(doc, r, p, 0), At(doc, r, p, |Block(Part(doc, r), p)|), Depth(doc, r, p), tag, from)
  }

  lemma {:induction false} FieldBlockLeafy(ns: seq<Node>)
    requires FieldBlock(ns)
    ensures AllLeafy(ns)
  {
  }

  /** Without a hint, the first child with the tag is found, if there is one. */
  lemma {:induction false} FoundFirst(doc: Doc, r: Region, p: Path, tag: nat)
    requires IsBlock(doc, r, p) && AllLeafy(Block(Part(doc, r), p))
    ensures At(doc, r, p, |Block(Part(doc, r), p)|) <= |ImageOf(doc).tape|
    ensures var block := Block(Part(doc, r), p);
            var k := First(block, HasTag(tag));
            FoundIn(doc, r, p, tag, None) == if k < |block| then Some(At(doc, r, p, k)) else None
  {
    hide ImageOf, At, Part, Block, Seek, First, Leafy, Depth;
    var block := Block(Part(doc, r), p);
    AtWithin(doc, r, p, 0);
    SeekBlock(doc, r, p, 0, |block|, HasTag(tag));
    assert block[0..|block|] == block;
    AtOrdered(doc, r, p, First(block, HasTag(tag)), |block|);
  }

  /** Where a search from a hint goes on from: the child hinted at, or the one behind the gap hinted into. */
  lemma {:induction false} SeekFromHint(doc: Doc, r: Region, p: Path, f: Test, i: nat, k: nat) returns (m: nat)
    requires IsBlock(doc, r, p) && AllLeafy(Block(Part(doc, r), p)) && SkipsGaps(f)
    requires k < |Block(Part(doc, r), p)| && At(doc, r, p, k) <= i < At(doc, r, p, k + 1)
    requires i == At(doc, r, p, k) || Block(Part(doc, r), p)[k].entry.kind.Gap?
    ensures m <= |Block(Part(doc, r), p)| && m == if i == At(doc, r, p, k) then k else k + 1
    ensures At(doc, r, p, |Block(Part(doc, r), p)|) <= |ImageOf(doc).tape|
    ensures Seek(ImageOf(doc).tape, i, At(doc, r, p, |Block(Part(doc, r), p)|), f)
            == At(doc, r, p, m + First(Block(Part(doc, r), p)[m..], f))
  {
    hide ImageOf, At, Part, Block, Seek, First, Leafy, Depth;
    var block := Block(Part(doc, r), p);
    m := if i == At(doc, r, p, k) then k else k + 1;
    AtWithin(doc, r, p, k + 1);
    if i != At(doc, r, p, k) {
      SeekSlots(doc, r, p, k, i, At(doc, r, p, |block|), f);
    }
    SeekBlock(doc, r, p, m, |block|, f);
    assert block[m..|block|] == block[m..];
  }

  lemma {:induction false} FirstBehind(ns: seq<Node>, m: nat, f: Test)
    requires m <= |ns|
    ensures First(ns, f) < m || First(ns, f) == m + First(ns[m..], f)
    decreases m
  {
    if m == 0 {
      assert ns[0..] == ns;
    } else if !f(ns[0].entry.tag, ns[0].entry.kind) {
      assert ns[1..][m - 1..] == ns[m..];
      FirstBehind(ns[1..], m - 1, f);
    }
  }

  lemma {:induction false} FoundOnTape(tape: seq<Entry>, start: nat, end: nat, depth: nat, tag: nat, i: nat)
    requires start < i < end <= |tape| && IsBoundary(tape, i, depth)
    ensures var x, y := Seek(tape, i, end, HasTag(tag)), Seek(tape, start, end, HasTag(tag));
            Found(tape, start, end, depth, tag, Some(i))
            == if x < end then Some(x) else if y < i then Some(y) else None
  {
    SeekShorter(tape, start, end, i, HasTag(tag));
  }

  /** The child a search from a hint finds. */
  function Sought(block: seq<Node>, f: Test, on: nat): (m: nat)
    requires on <= |block|
    ensures m <= |block| && (m < |block| ==> Passes(f, block[m]))
    ensures m == |block| ==> First(block, f) == m
  {
    FirstBehind(block, on, f);
    var ahead := on + First(block[on..], f);
    if ahead < |block| then ahead else First(block, f)
  }

  /** A search from a hint finds a child with the tag, if there is one. */
  lemma {:induction false} FoundFrom(doc: Doc, r: Region, p: Path, tag: nat, i: nat) returns (on: nat)
    requires IsBlock(doc, r, p) && FieldBlock(Block(Part(doc, r), p))
    requires At(doc, r, p, 0) < i < At(doc, r, p, |Block(Part(doc, r), p)|) <= |ImageOf(doc).tape|
    requires IsBoundary(ImageOf(doc).tape, i, Depth(doc, r, p))
    ensures on <= |Block(Part(doc, r), p)|
    ensures var m := Sought(Block(Part(doc, r), p), HasTag(tag), on);
            FoundIn(doc, r, p, tag, Some(i))
            == if m < |Block(Part(doc, r), p)| then Some(At(doc, r, p, m)) else None
  {
    hide ImageOf, At, Part, Block, Seek, First, Depth, FieldBlock, Found, HasTag, IsBoundary, Leafy;
    var block, f := Block(Part(doc, r), p), HasTag(tag);
    FieldBlockLeafy(block);
    var k := Taken(doc, r, p, i);
    TagSkipsGaps(tag);
    on := SeekFromHint(doc, r, p, f, i, k);
    FoundOnTape(ImageOf(doc).tape, At(doc, r, p, 0), At(doc, r, p, |block|), Depth(doc, r, p), tag, i);
    SeekWhole(doc, r, p, f);
    FirstBehind(block, on, f);
    AtOrdered(doc, r, p, on + First(block[on..], f), |block|);
    if First(block, f) < on {
      AtOrdered(doc, r, p, First(block, f), k);
    } else {
      AtOrdered(doc, r, p, k, First(block, f));
    }
  }

  lemma {:induction false} TagSkipsGaps(tag: nat)
    ensures SkipsGaps(HasTag(tag))
  {
  }

  lemma {:induction false} SeekWhole(doc: Doc, r: Region, p: Path, f: Test)
    requires IsBlock(doc, r, p) && AllLeafy(Block(Part(doc, r), p)) && SkipsGaps(f)
    ensures At(doc, r, p, |Block(Part(doc, r), p)|) <= |ImageOf(doc).tape|
    ensures Seek(ImageOf(doc).tape, At(doc, r, p, 0), At(doc, r, p, |Block(Part(doc, r), p)|), f)
            == At(doc, r, p, First(Block(Part(doc, r), p), f))
  {
    hide ImageOf, At, Part, Block, Seek, First, Leafy;
    var block := Block(Part(doc, r), p);
    SeekBlock(doc, r, p, 0, |block|, f);
    assert block[0..|block|] == block;
  }

  /** At most one child of a block has the tag. */
  predicate AtMostOnce(block: seq<Node>, tag: nat) {
    forall i, j :: 0 <= i < j < |block| && Passes(HasTag(tag), block[i]) ==> !Passes(HasTag(tag), block[j])
  }

  /** A hint that is not taken changes nothing; one that is finds some child with the tag. */
  lemma {:induction false} FoundOnce(doc: Doc, r: Region, p: Path, tag: nat, from: Option<nat>)
    requires IsBlock(doc, r, p) && FieldBlock(Block(Part(doc, r), p)) && AtMostOnce(Block(Part(doc, r), p), tag)
    requires At(doc, r, p, |Block(Part(doc, r), p)|) <= |ImageOf(doc).tape|
    ensures FoundIn(doc, r, p, tag, from) == FoundIn(doc, r, p, tag, None)
  {
    var block, tape := Block(Part(doc, r), p), ImageOf(doc).tape;
    FieldBlockLeafy(block);
    FoundFirst(doc, r, p, tag);
    if from.Some? && At(doc, r, p, 0) < from.value < At(doc, r, p, |block|)
       && IsBoundary(tape, from.value, Depth(doc, r, p)) {
      var on := FoundFrom(doc, r, p, tag, from.value);
      SoughtOnce(block, tag, on);
    }
  }

  lemma {:induction false} SoughtOnce(block: seq<Node>, tag: nat, on: nat)
    requires on <= |block| && AtMostOnce(block, tag)
    ensures Sought(block, HasTag(tag), on) == First(block, HasTag(tag))
  {
    var m, k := Sought(block, HasTag(tag), on), First(block, HasTag(tag));
    assert k < |block| ==> Passes(HasTag(tag), block[k]);
    assert m < k ==> m < |block| && Passes(HasTag(tag), block[m]);
  }

  /** Two children with a tag: a hint at the second finds it. */
  lemma {:induction false} HintMisleads(doc: Doc, r: Region, p: Path, tag: nat, i: nat, j: nat)
    requires IsBlock(doc, r, p) && AllLeafy(Block(Part(doc, r), p)) && i < j < |Block(Part(doc, r), p)|
    requires Passes(HasTag(tag), Block(Part(doc, r), p)[i]) && Passes(HasTag(tag), Block(Part(doc, r), p)[j])
    ensures At(doc, r, p, |Block(Part(doc, r), p)|) <= |ImageOf(doc).tape|
    ensures FoundIn(doc, r, p, tag, Some(At(doc, r, p, j))) != FoundIn(doc, r, p, tag, None)
  {
    var block := Block(Part(doc, r), p);
    FoundFirst(doc, r, p, tag);
    EntryAt(doc, r, p, j);
    HeadKind(block[j], Depth(doc, r, p));
    HeadTag(block[j], Depth(doc, r, p));
    assert Head(block[j], Depth(doc, r, p)).depth == Depth(doc, r, p);
    hide ImageOf, At, Part, Block, First, Depth, Leafy;
    AtOrdered(doc, r, p, 0, j);
    AtOrdered(doc, r, p, j, |block|);
    AtOrdered(doc, r, p, First(block, HasTag(tag)), j);
    FoundOnTape(ImageOf(doc).tape, At(doc, r, p, 0), At(doc, r, p, |block|), Depth(doc, r, p), tag, At(doc, r, p, j));
  }

  /**
   * A lookup from any hint (stale, in another block, inside the header gap) is the lookup without
   * one, exactly when the block has the tag at most once.
   */
  lemma {:induction false} HintsAreHarmless(doc: Doc, r: Region, p: Path, tag: nat)
    requires IsBlock(doc, r, p) && FieldBlock(Block(Part(doc, r), p))
    ensures At(doc, r, p, |Block(Part(doc, r), p)|) <= |ImageOf(doc).tape|
    ensures (forall from :: FoundIn(doc, r, p, tag, from) == FoundIn(doc, r, p, tag, None))
            <==> AtMostOnce(Block(Part(doc, r), p), tag)
  {
    hide FoundIn, At, FieldBlock, ImageOf, HasTag;
    var block := Block(Part(doc, r), p);
    FieldBlockLeafy(block);
    AtWithin(doc, r, p, 0);
    if AtMostOnce(block, tag) {
      forall from
        ensures FoundIn(doc, r, p, tag, from) == FoundIn(doc, r, p, tag, None)
      {
        FoundOnce(doc, r, p, tag, from);
      }
    } else {
      var i, j :| 0 <= i < j < |block| && Passes(HasTag(tag), block[i]) && Passes(HasTag(tag), block[j]);
      HintMisleads(doc, r, p, tag, i, j);
    }
  }

  /** A body that has a tag twice: without a hint the first is found, with a hint at the second, the second. */
  lemma {:induction false} HintFindsAnother()
    ensures var one, two := Node(Entry(58, Field, 0, Wire, 3, 0, 1), []), Node(Entry(58, Field, 0, Wire, 3, 5, 1), []);
            var doc := Doc([], [one, two], []);
            && IsBlock(doc, Body, []) && At(doc, Body, [], 2) <= |ImageOf(doc).tape|
            && FoundIn(doc, Body, [], 58, None) == Some(0) && FoundIn(doc, Body, [], 58, Some(1)) == Some(1)
  {
    var one, two := Node(Entry(58, Field, 0, Wire, 3, 0, 1), []), Node(Entry(58, Field, 0, Wire, 3, 5, 1), []);
    assert Flat([one, two], 0) == [one.entry, two.entry] by {
      assert [one, two][1..] == [two] && [two][1..] == [];
      FlatOne(two, 0);
    }
    assert [one, two][..2] == [one, two] && [one, two][..0] == [];
    assert ImageOf(Doc([], [one, two], [])).tape == [one.entry, two.entry];
  }
}
