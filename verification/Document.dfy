/**
 * A message as three trees, its header, body and trailer, and the image of it that is kept: one
 * tape with the two boundaries between them (message/tape.rs). Splicing entries into the image is
 * splicing nodes into a tree (message/edit.rs).
 */
module Document {
  import opened Tape

  datatype Doc = Doc(header: seq<Node>, body: seq<Node>, trailer: seq<Node>)

  function Part(doc: Doc, r: Region): seq<Node> {
    match r
    case Header => doc.header
    case Body => doc.body
    case Trailer => doc.trailer
  }

  function WithPart(doc: Doc, r: Region, ns: seq<Node>): Doc {
    match r
    case Header => doc.(header := ns)
    case Body => doc.(body := ns)
    case Trailer => doc.(trailer := ns)
  }

  datatype Image = Image(tape: seq<Entry>, bodyStart: nat, trailerStart: nat)

  /** The image a message is kept as. */
  function ImageOf(doc: Doc): Image {
    Image(Flat(doc.header, 0) + Flat(doc.body, 0) + Flat(doc.trailer, 0),
          Size(doc.header), Size(doc.header) + Size(doc.body))
  }

  /** Where a region's entries start. */
  function Start(doc: Doc, r: Region): nat {
    match r
    case Header => 0
    case Body => Size(doc.header)
    case Trailer => Size(doc.header) + Size(doc.body)
  }

  /** What is laid out before and after a region. */
  function Before(doc: Doc, r: Region): (s: seq<Entry>)
    ensures |s| == Start(doc, r)
  {
    match r
    case Header => []
    case Body => Flat(doc.header, 0)
    case Trailer => Flat(doc.header, 0) + Flat(doc.body, 0)
  }

  function Behind(doc: Doc, r: Region): seq<Entry> {
    match r
    case Header => Flat(doc.body, 0) + Flat(doc.trailer, 0)
    case Body => Flat(doc.trailer, 0)
    case Trailer => []
  }

  lemma {:induction false} LaidOut(doc: Doc, r: Region)
    ensures ImageOf(doc).tape == Before(doc, r) + Flat(Part(doc, r), 0) + Behind(doc, r)
  {
    match r
    case Header => assert [] + Flat(doc.header, 0) == Flat(doc.header, 0);
                   assert Flat(doc.header, 0) + (Flat(doc.body, 0) + Flat(doc.trailer, 0))
                          == Flat(doc.header, 0) + Flat(doc.body, 0) + Flat(doc.trailer, 0);
    case Body =>
    case Trailer => assert ImageOf(doc).tape + [] == ImageOf(doc).tape;
  }

  // ---------------------------------------------------------------------
  // Splicing
  // ---------------------------------------------------------------------

  /** A block with the nodes from `i` to `j` exchanged. */
  function Exchanged(block: seq<Node>, i: nat, j: nat, cs: seq<Node>): seq<Node>
    requires i <= j <= |block|
  {
    block[..i] + cs + block[j..]
  }

  /** A message with the nodes from `i` to `j` of one block exchanged. */
  function Edited(doc: Doc, r: Region, p: Path, i: nat, j: nat, cs: seq<Node>): Doc
    requires ValidPath(Part(doc, r), p)
    requires i <= j <= |Block(Part(doc, r), p)|
  {
    WithPart(doc, r, SetBlock(Part(doc, r), p, Exchanged(Block(Part(doc, r), p), i, j, cs)))
  }

  /** Where the `i`th node of a block starts on the tape. */
  function At(doc: Doc, r: Region, p: Path, i: nat): nat
    requires ValidPath(Part(doc, r), p)
    requires i <= |Block(Part(doc, r), p)|
  {
    Start(doc, r) + Offset(Part(doc, r), p) + Size(Block(Part(doc, r), p)[..i])
  }

  /** The groups and instances around a block. */
  function Around(doc: Doc, r: Region, p: Path): (s: seq<nat>)
    requires ValidPath(Part(doc, r), p)
    ensures |s| == |p|
  {
    Ancestors(Part(doc, r), p, Start(doc, r))
  }

  function Depth(doc: Doc, r: Region, p: Path): nat
    requires ValidPath(Part(doc, r), p)
  {
    BlockDepth(Part(doc, r), p, 0)
  }

  /** A path to a block: a region, or what is in a group, or in an instance, at any depth. */
  predicate IsBlock(doc: Doc, r: Region, p: Path) {
    ValidPath(Part(doc, r), p) && Spanned(Part(doc, r), p)
  }

  /** The entries from `lo` to `hi` exchanged, and those at `at` grown to match. */
  function Spliced(tape: seq<Entry>, at: seq<nat>, lo: nat, hi: nat, entries: seq<Entry>): seq<Entry>
    requires lo <= hi <= |tape|
    requires forall i :: 0 <= i < |at| ==> at[i] < lo
  {
    GrowAll(tape[..lo], at, |entries| - (hi - lo)) + entries + tape[hi..]
  }

  /** The boundaries after a region, moved. */
  function Shifted(bodyStart: nat, trailerStart: nat, r: Region, n: int): (nat, nat) {
    match r
    case Header => (Plus(bodyStart, n), Plus(trailerStart, n))
    case Body => (bodyStart, Plus(trailerStart, n))
    case Trailer => (bodyStart, trailerStart)
  }

  /** The count of the last of `at` set to `count`, where that is a group. */
  function Recounted(tape: seq<Entry>, at: seq<nat>, count: nat): seq<Entry>
    requires forall i :: 0 <= i < |at| ==> at[i] < |tape|
  {
    if at == [] then tape else tape[at[|at| - 1] := Recount(tape[at[|at| - 1]], count)]
  }

  lemma {:induction false} ExchangedSize(block: seq<Node>, i: nat, j: nat, cs: seq<Node>, depth: nat)
    requires i <= j <= |block|
    ensures Size(block) == Size(block[..i]) + Size(block[i..j]) + Size(block[j..])
    ensures Size(Exchanged(block, i, j, cs)) == Size(block[..i]) + Size(cs) + Size(block[j..])
    ensures Size(block[..j]) == Size(block[..i]) + Size(block[i..j])
    ensures Flat(block, depth) == Flat(block[..i], depth) + Flat(block[i..j], depth) + Flat(block[j..], depth)
    ensures Flat(Exchanged(block, i, j, cs), depth)
            == Flat(block[..i], depth) + Flat(cs, depth) + Flat(block[j..], depth)
  {
    assert block == block[..i] + block[i..j] + block[j..];
    assert block[..j] == block[..i] + block[i..j];
    SizeAppend(block[..i] + block[i..j], block[j..]);
    SizeAppend(block[..i], block[i..j]);
    SizeAppend(block[..i] + cs, block[j..]);
    SizeAppend(block[..i], cs);
    FlatAppend(block[..i] + block[i..j], block[j..], depth);
    FlatAppend(block[..i], block[i..j], depth);
    FlatAppend(block[..i] + cs, block[j..], depth);
    FlatAppend(block[..i], cs, depth);
  }

  lemma {:induction false} SpliceBetween(a: seq<Entry>, x: seq<Entry>, y: seq<Entry>, z: seq<Entry>, at: seq<nat>,
                                         entries: seq<Entry>)
    requires forall i :: 0 <= i < |at| ==> at[i] < |a|
    ensures Spliced(a + x + y + z, at, |a + x|, |a + x + y|, entries)
            == GrowAll(a, at, |entries| - |y|) + x + entries + z
  {
    var t := a + x + y + z;
    assert t[..|a + x|] == a + x && t[|a + x + y|..] == z;
    GrowAppend(a, x, at, |entries| - |y|);
  }

  lemma {:induction false} RecountWithin(outer: seq<Entry>, ns: seq<Node>, p: Path, depth: nat, n: int, count: nat,
                                         count': nat, rest: seq<Entry>)
    requires ValidPath(ns, p)
    ensures forall i :: 0 <= i < |p| ==> Ancestors(ns, p, |outer|)[i] < |outer| + Offset(ns, p)
    ensures Recounted(outer + Prefix(ns, p, depth, n, count) + rest, Ancestors(ns, p, |outer|), count')
            == outer + Prefix(ns, p, depth, n, count') + rest
  {
    AncestorsBefore(ns, p, |outer|);
    hide *;
    if p == [] {
      NoPrefix(ns, depth, n, count);
      NoPrefix(ns, depth, n, count');
      RecountNone(outer + [] + rest, Ancestors(ns, p, |outer|), count');
    } else {
      RecountPrefix(ns, p, depth, n, count, count', |outer|);
      RecountMiddle(outer, Prefix(ns, p, depth, n, count), Prefix(ns, p, depth, n, count'), rest,
                    Ancestors(ns, p, |outer|), count');
    }
  }

  lemma {:induction false} NoPrefix(ns: seq<Node>, depth: nat, n: int, count: nat)
    ensures Prefix(ns, [], depth, n, count) == []
  {
  }

  lemma {:induction false} RecountNone(tape: seq<Entry>, at: seq<nat>, count: nat)
    requires at == []
    ensures Recounted(tape, at, count) == tape
  {
  }

  lemma {:induction false} RecountMiddle(a: seq<Entry>, x: seq<Entry>, x': seq<Entry>, z: seq<Entry>, at: seq<nat>,
                                         count: nat)
    requires at != [] && forall i :: 0 <= i < |at| ==> |a| <= at[i] < |a| + |x|
    requires x' == x[at[|at| - 1] - |a| := Recount(x[at[|at| - 1] - |a|], count)]
    ensures Recounted(a + x + z, at, count) == a + x' + z
  {
    hide Recount;
    UpdateMiddle(a, x, z, at[|at| - 1], Recount(x[at[|at| - 1] - |a|], count));
  }

  lemma {:induction false} UpdateMiddle(a: seq<Entry>, x: seq<Entry>, z: seq<Entry>, at: nat, e: Entry)
    requires |a| <= at < |a| + |x|
    ensures (a + x + z)[at] == x[at - |a|]
    ensures (a + x + z)[at := e] == a + x[at - |a| := e] + z
  {
  }

  /**
   * Within a tape: splicing a block's entries, with its ancestors' spans grown and the nearest one
   * recounted, is laying out the tree with those nodes exchanged.
   */
  lemma {:induction false} SpliceWithin(outer: seq<Entry>, ns: seq<Node>, p: Path, i: nat, j: nat, cs: seq<Node>,
                                        rest: seq<Entry>)
    requires ValidPath(ns, p) && Spanned(ns, p)
    requires i <= j <= |Block(ns, p)|
    ensures var block, at := Block(ns, p), Ancestors(ns, p, |outer|);
            var lo := |outer| + Offset(ns, p) + Size(block[..i]);
            var hi := |outer| + Offset(ns, p) + Size(block[..j]);
            var tape := outer + Flat(ns, 0) + rest;
            && lo <= hi <= |tape|
            && (forall k :: 0 <= k < |at| ==> at[k] < lo)
            && Recounted(Spliced(tape, at, lo, hi, Flat(cs, BlockDepth(ns, p, 0))), at,
                         |Exchanged(block, i, j, cs)|)
               == outer + Flat(SetBlock(ns, p, Exchanged(block, i, j, cs)), 0) + rest
  {
    hide Flat, Recount, GrowAll, Prefix, Suffix, Recounted, Spliced, Exchanged, Ancestors, Size, Offset, BlockDepth;
    var block, at, d := Block(ns, p), Ancestors(ns, p, |outer|), BlockDepth(ns, p, 0);
    var block' := Exchanged(block, i, j, cs);
    var delta := Delta(ns, p, block');
    AncestorsBefore(ns, p, |outer|);
    ExchangedSize(block, i, j, cs, d);
    BlockInFlat(ns, p, 0);
    SetBlockFlat(ns, p, block', 0);
    GrowPrefix(ns, p, 0, delta, |block|, outer);
    var pre := Prefix(ns, p, 0, 0, |block|);
    var x, y, z, post := Flat(block[..i], d), Flat(block[i..j], d), Flat(block[j..], d), Suffix(ns, p, 0);
    RegroupBlock(outer, pre, x, y, z, post, rest);
    SpliceBetween(outer + pre, x, y, z + post + rest, at, Flat(cs, d));
    RegroupBlock(outer, Prefix(ns, p, 0, delta, |block'|), x, Flat(cs, d), z, post, rest);
    RecountWithin(outer, ns, p, 0, delta, |block|, |block'|, x + Flat(cs, d) + (z + post + rest));
    RegroupTail(outer + Prefix(ns, p, 0, delta, |block|), x, Flat(cs, d), z + post + rest);
    RegroupTail(outer + Prefix(ns, p, 0, delta, |block'|), x, Flat(cs, d), z + post + rest);
  }

  lemma {:induction false} RegroupBlock(a: seq<Entry>, b: seq<Entry>, x: seq<Entry>, y: seq<Entry>, z: seq<Entry>,
                                        c: seq<Entry>, d: seq<Entry>)
    ensures a + (b + (x + y + z) + c) + d == (a + b) + x + y + (z + c + d)
  {
  }

  lemma {:induction false} RegroupTail(a: seq<Entry>, x: seq<Entry>, y: seq<Entry>, z: seq<Entry>)
    ensures a + x + y + z == a + (x + y + z)
  {
  }

  /**
   * Splicing the image of a message, growing the ancestors, recounting the nearest and moving the
   * boundaries behind it, gives the image of the message with those nodes exchanged: in any
   * region and at any depth.
   */
  lemma {:induction false} SpliceRefines(doc: Doc, r: Region, p: Path, i: nat, j: nat, cs: seq<Node>)
    requires IsBlock(doc, r, p)
    requires i <= j <= |Block(Part(doc, r), p)|
    ensures var im, at, lo, hi := ImageOf(doc), Around(doc, r, p), At(doc, r, p, i), At(doc, r, p, j);
            && lo <= hi <= |im.tape|
            && (forall k :: 0 <= k < |at| ==> at[k] < lo)
            && ImageOf(Edited(doc, r, p, i, j, cs)).tape
               == Recounted(Spliced(im.tape, at, lo, hi, Flat(cs, Depth(doc, r, p))), at,
                            |Exchanged(Block(Part(doc, r), p), i, j, cs)|)
            && Shifted(im.bodyStart, im.trailerStart, r, Size(cs) - (hi - lo))
               == (ImageOf(Edited(doc, r, p, i, j, cs)).bodyStart, ImageOf(Edited(doc, r, p, i, j, cs)).trailerStart)
  {
    hide ImageOf, Edited, Recounted, Spliced, Exchanged, Flat, Block;
    SpliceBounds(doc, r, p, i, j, cs);
    SpliceTape(doc, r, p, i, j, cs);
  }

  lemma {:induction false} WithPartElsewhere(doc: Doc, r: Region, ns: seq<Node>)
    ensures Part(WithPart(doc, r, ns), r) == ns
    ensures Before(WithPart(doc, r, ns), r) == Before(doc, r)
    ensures Behind(WithPart(doc, r, ns), r) == Behind(doc, r)
    ensures Start(WithPart(doc, r, ns), r) == Start(doc, r)
  {
  }

  lemma {:induction false} SpliceTape(doc: Doc, r: Region, p: Path, i: nat, j: nat, cs: seq<Node>)
    requires IsBlock(doc, r, p)
    requires i <= j <= |Block(Part(doc, r), p)|
    ensures var im, at, lo, hi := ImageOf(doc), Around(doc, r, p), At(doc, r, p, i), At(doc, r, p, j);
            && lo <= hi <= |im.tape|
            && (forall k :: 0 <= k < |at| ==> at[k] < lo)
            && ImageOf(Edited(doc, r, p, i, j, cs)).tape
               == Recounted(Spliced(im.tape, at, lo, hi, Flat(cs, Depth(doc, r, p))), at,
                            |Exchanged(Block(Part(doc, r), p), i, j, cs)|)
  {
    hide ImageOf, WithPart, Part, Flat, Recounted, Spliced, Exchanged, Ancestors, SetBlock, Block, Before, Behind, Offset;
    var ns := Part(doc, r);
    SpliceWithin(Before(doc, r), ns, p, i, j, cs, Behind(doc, r));
    LaidOut(doc, r);
    LaidOut(Edited(doc, r, p, i, j, cs), r);
    WithPartElsewhere(doc, r, SetBlock(ns, p, Exchanged(Block(ns, p), i, j, cs)));
  }

  lemma {:induction false} SpliceBounds(doc: Doc, r: Region, p: Path, i: nat, j: nat, cs: seq<Node>)
    requires IsBlock(doc, r, p)
    requires i <= j <= |Block(Part(doc, r), p)|
    ensures Shifted(ImageOf(doc).bodyStart, ImageOf(doc).trailerStart, r,
                    Size(cs) - (At(doc, r, p, j) - At(doc, r, p, i)))
            == (ImageOf(Edited(doc, r, p, i, j, cs)).bodyStart, ImageOf(Edited(doc, r, p, i, j, cs)).trailerStart)
  {
    var ns, block := Part(doc, r), Block(Part(doc, r), p);
    hide *;
    SetBlockSize(ns, p, Exchanged(block, i, j, cs));
    SpliceSize(doc, r, p, i, j, cs);
    ShiftRefines(doc, r, SetBlock(ns, p, Exchanged(block, i, j, cs)), Delta(ns, p, Exchanged(block, i, j, cs)));
  }

  lemma {:induction false} SpliceSize(doc: Doc, r: Region, p: Path, i: nat, j: nat, cs: seq<Node>)
    requires IsBlock(doc, r, p)
    requires i <= j <= |Block(Part(doc, r), p)|
    ensures Delta(Part(doc, r), p, Exchanged(Block(Part(doc, r), p), i, j, cs))
            == Size(cs) - (At(doc, r, p, j) - At(doc, r, p, i))
    ensures Edited(doc, r, p, i, j, cs)
            == WithPart(doc, r, SetBlock(Part(doc, r), p, Exchanged(Block(Part(doc, r), p), i, j, cs)))
  {
    hide Size, Exchanged, Block, SetBlock;
    ExchangedSize(Block(Part(doc, r), p), i, j, cs, 0);
  }

  lemma {:induction false} ShiftRefines(doc: Doc, r: Region, ns: seq<Node>, n: int)
    requires Size(ns) == Size(Part(doc, r)) + n
    ensures Shifted(ImageOf(doc).bodyStart, ImageOf(doc).trailerStart, r, n)
            == (ImageOf(WithPart(doc, r, ns)).bodyStart, ImageOf(WithPart(doc, r, ns)).trailerStart)
  {
    hide Size, Flat;
  }

  /** A view made of a block before an edit inside it, however deep, is good after it. */
  lemma {:induction false} ViewsStay(doc: Doc, r: Region, p: Path, q: Path, i: nat, j: nat, cs: seq<Node>)
    requires IsBlock(doc, r, p + q)
    requires i <= j <= |Block(Part(doc, r), p + q)|
    ensures IsBlock(doc, r, p)
    ensures var doc' := Edited(doc, r, p + q, i, j, cs);
            && IsBlock(doc', r, p)
            && Around(doc', r, p) == Around(doc, r, p)
            && Depth(doc', r, p) == Depth(doc, r, p)
            && At(doc', r, p, 0) == At(doc, r, p, 0)
            && (p != [] ==> Owner(Part(doc', r), p).entry == Owner(Part(doc, r), p).entry)
  {
    hide Part, WithPart, Exchanged, Block, SetBlock, Offset, BlockDepth, Ancestors, Start;
    var ns := Part(doc, r);
    var cs' := Exchanged(Block(ns, p + q), i, j, cs);
    SpannedOnTheWay(ns, p, q);
    SetBlockFurther(ns, p, q, cs');
    SetBlockStays(ns, p, SetBlock(Block(ns, p), q, cs'), Start(doc, r), 0);
    WithPartElsewhere(doc, r, SetBlock(ns, p + q, cs'));
    NoneTaken(Block(ns, p));
    NoneTaken(SetBlock(Block(ns, p), q, cs'));
  }

  lemma {:induction false} NoneTaken(ns: seq<Node>)
    ensures Size(ns[..0]) == 0
  {
  }

  lemma {:induction false} SpannedOnTheWay(ns: seq<Node>, p: Path, q: Path)
    requires ValidPath(ns, p + q) && Spanned(ns, p + q)
    ensures ValidPath(ns, p) && Spanned(ns, p)
    decreases p
  {
    if p != [] {
      assert (p + q)[1..] == p[1..] + q;
      SpannedOnTheWay(ns[p[0]].kids, p[1..], q);
    }
  }

  // ---------------------------------------------------------------------
  // The header gap
  // ---------------------------------------------------------------------

  /** `k` reserved slots. */
  function GapNode(k: nat): Node {
    Node(GapOf(k), [])
  }

  /** What is left of a gap of `room` slots once `n` are used. */
  function Remaining(room: nat, n: nat): seq<Node>
    requires n <= room
  {
    if n == room then [] else [GapNode(room - n)]
  }

  /** The tape with a gap's first slots overwritten, and the next made the start of what remains of it. */
  function Filled(tape: seq<Entry>, at: nat, room: nat, entries: seq<Entry>): seq<Entry>
    requires |entries| <= room && at + room <= |tape|
  {
    var t := tape[..at] + entries + tape[at + |entries|..];
    if room > |entries| then t[at + |entries| := GapOf(room - |entries|)] else t
  }

  lemma {:induction false} RemainingFlat(room: nat, n: nat)
    requires 1 <= n <= room
    ensures Size([GapNode(room)]) == room && Size(Remaining(room, n)) == room - n
    ensures Flat([GapNode(room)], 0) == [GapOf(room)] + Unused(room - 1)
    ensures Flat(Remaining(room, n), 0) == if n == room then [] else [GapOf(room - n)] + Unused(room - n - 1)
  {
    FlatOne(GapNode(room), 0);
    if n < room {
      FlatOne(GapNode(room - n), 0);
    }
  }

  lemma {:induction false} FilledWithin(a: seq<Entry>, room: nat, entries: seq<Entry>, z: seq<Entry>)
    requires 1 <= |entries| <= room
    ensures Filled(a + ([GapOf(room)] + Unused(room - 1)) + z, |a|, room, entries)
            == a + entries
               + (if |entries| == room then [] else [GapOf(room - |entries|)] + Unused(room - |entries| - 1)) + z
  {
    hide GapOf;
    var n := |entries|;
    var gap := [GapOf(room)] + Unused(room - 1);
    var tape := a + gap + z;
    assert tape[..|a|] == a;
    assert tape[|a| + n..] == gap[n..] + z;
    if n < room {
      GapShortened(room, n);
      Shortened(a + entries, gap[n..], GapOf(room - n), z);
      var rest := [GapOf(room - n)] + Unused(room - n - 1);
      assert a + entries + (rest + z) == a + entries + rest + z;
    } else {
      assert gap[n..] + z == z;
      assert a + entries + z == a + entries + [] + z;
    }
  }

  lemma {:induction false} GapShortened(room: nat, n: nat)
    requires 1 <= n < room
    ensures ([GapOf(room)] + Unused(room - 1))[n..] == Unused(room - n)
    ensures Unused(room - n)[0 := GapOf(room - n)] == [GapOf(room - n)] + Unused(room - n - 1)
  {
    hide GapOf;
  }

  lemma {:induction false} Shortened(b: seq<Entry>, gap: seq<Entry>, e: Entry, z: seq<Entry>)
    requires gap != []
    ensures (b + (gap + z))[|b| := e] == b + (gap[0 := e] + z)
  {
  }

  lemma {:induction false} FilledFlat(ns: seq<Node>, i: nat, cs: seq<Node>, z: seq<Entry>)
    requires i < |ns| && ns[i] == GapNode(NodeSize(ns[i]))
    requires 1 <= Size(cs) <= NodeSize(ns[i])
    ensures var room := NodeSize(ns[i]);
            && Size(ns[..i]) + room <= |Flat(ns, 0) + z|
            && Size(Exchanged(ns, i, i + 1, cs + Remaining(room, Size(cs)))) == Size(ns)
            && Flat(Exchanged(ns, i, i + 1, cs + Remaining(room, Size(cs))), 0) + z
               == Filled(Flat(ns, 0) + z, Size(ns[..i]), room, Flat(cs, 0))
  {
    var room := NodeSize(ns[i]);
    var rest := Remaining(room, Size(cs));
    ExchangedSize(ns, i, i + 1, cs + rest, 0);
    SizeAppend(cs, rest);
    FlatAppend(cs, rest, 0);
    RemainingFlat(room, Size(cs));
    assert ns[i..i + 1] == [GapNode(room)];
    FilledPieces(Flat(ns[..i], 0), room, Flat(cs, 0), Flat(rest, 0), Flat(ns[i + 1..], 0), z);
  }

  lemma {:induction false} FilledPieces(a: seq<Entry>, room: nat, entries: seq<Entry>, rest: seq<Entry>, b: seq<Entry>,
                                        z: seq<Entry>)
    requires 1 <= |entries| <= room
    requires rest == if |entries| == room then [] else [GapOf(room - |entries|)] + Unused(room - |entries| - 1)
    ensures Filled(a + ([GapOf(room)] + Unused(room - 1)) + b + z, |a|, room, entries) == a + (entries + rest) + b + z
  {
    hide Filled, GapOf;
    var gap := [GapOf(room)] + Unused(room - 1);
    assert a + gap + b + z == a + gap + (b + z);
    assert a + (entries + rest) + b + z == a + entries + rest + (b + z);
    FilledWithin(a, room, entries, b + z);
  }

  /** Filling slots of the header gap is inserting before it and shrinking it: nothing else moves. */
  lemma {:induction false} FillRefines(doc: Doc, i: nat, cs: seq<Node>)
    requires i < |doc.header| && doc.header[i] == GapNode(NodeSize(doc.header[i]))
    requires 1 <= Size(cs) <= NodeSize(doc.header[i])
    ensures var room, at := NodeSize(doc.header[i]), At(doc, Header, [], i);
            && at + room <= |ImageOf(doc).tape|
            && ImageOf(Edited(doc, Header, [], i, i + 1, cs + Remaining(room, Size(cs))))
               == ImageOf(doc).(tape := Filled(ImageOf(doc).tape, at, room, Flat(cs, 0)))
  {
    hide Flat, Size, NodeSize, Filled, Exchanged, Remaining, GapNode;
    FilledFlat(doc.header, i, cs, Flat(doc.body, 0) + Flat(doc.trailer, 0));
    var doc' := Edited(doc, Header, [], i, i + 1, cs + Remaining(NodeSize(doc.header[i]), Size(cs)));
    assert ImageOf(doc).tape == Flat(doc.header, 0) + (Flat(doc.body, 0) + Flat(doc.trailer, 0));
    assert ImageOf(doc').tape == Flat(doc'.header, 0) + (Flat(doc.body, 0) + Flat(doc.trailer, 0));
  }
}
