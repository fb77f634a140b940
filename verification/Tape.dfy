/**
 * Trees and tapes (message/tape.rs). `Flat` lays trees out as a tape of entries; what the entries
 * say of spans, depths and counts is a function of the trees. Replacing part of a tree is a splice
 * of the tape, with the entries around it adjusted.
 */
module Tape {

  datatype Option<+T> = None | Some(value: T)

  datatype Kind = Gap | Field | DataLen | Data | Group | Instance

  datatype Seg = Wire | Arena

  datatype Region = Header | Body | Trailer

  /** One tape entry. `off` is where a field's bytes start, or a group's instance count; `len` a value's length, or a span. */
  datatype Entry = Entry(tag: nat, kind: Kind, depth: nat, seg: Seg, valOff: nat, off: nat, len: nat)
  {
    predicate IsField() {
      kind.Field? || kind.DataLen? || kind.Data?
    }

    /** Neither a gap nor an instance. */
    predicate IsTagged() {
      !kind.Gap? && !kind.Instance?
    }

    function Span(): (n: nat)
      ensures n >= 1
    {
      if kind.Gap? || kind.Group? || kind.Instance? then (if len < 1 then 1 else len) else 1
    }
  }

  const HEADER_GAP: nat := 20

  /** An unused slot: never looked at except as part of a gap. */
  const UNUSED := Entry(0, Gap, 0, Wire, 0, 0, 0)

  function GapOf(span: nat): Entry {
    UNUSED.(len := span)
  }

  // ---------------------------------------------------------------------
  // Trees, and how they are laid out
  // ---------------------------------------------------------------------

  /**
   * A node of the tree a tape stands for. The entry's depth, and a group's or instance's span and
   * count, follow from the tree; the rest of the entry is the node's own.
   */
  datatype Node = Node(entry: Entry, kids: seq<Node>)

  /** How many entries the nodes take up. */
  function Size(ns: seq<Node>): nat {
    if ns == [] then 0 else NodeSize(ns[0]) + Size(ns[1..])
  }

  function NodeSize(n: Node): (k: nat)
    ensures k >= 1
  {
    if n.entry.kind.Gap? then (if n.entry.len < 1 then 1 else n.entry.len) else 1 + Size(n.kids)
  }

  /** Instances are one deeper than their group; what is in an instance is as deep as the instance. */
  function KidDepth(n: Node, depth: nat): nat {
    if n.entry.kind.Group? then depth + 1 else depth
  }

  /** The entry a node is laid out under. */
  function Head(n: Node, depth: nat): Entry {
    match n.entry.kind
    case Gap => GapOf(NodeSize(n))
    case Group => n.entry.(depth := depth, off := |n.kids|, len := NodeSize(n))
    case Instance => n.entry.(depth := depth, len := NodeSize(n))
    case _ => n.entry.(depth := depth)
  }

  function Unused(k: nat): (s: seq<Entry>)
    ensures |s| == k && forall i :: 0 <= i < k ==> s[i] == UNUSED
  {
    if k == 0 then [] else [UNUSED] + Unused(k - 1)
  }

  function FlatNode(n: Node, depth: nat): (s: seq<Entry>)
    ensures |s| == NodeSize(n) && s[0] == Head(n, depth)
  {
    if n.entry.kind.Gap? then [Head(n, depth)] + Unused(NodeSize(n) - 1)
    else [Head(n, depth)] + Flat(n.kids, KidDepth(n, depth))
  }

  /** The tape for these nodes, side by side. */
  function Flat(ns: seq<Node>, depth: nat): (s: seq<Entry>)
    ensures |s| == Size(ns)
  {
    if ns == [] then [] else FlatNode(ns[0], depth) + Flat(ns[1..], depth)
  }

  lemma {:induction false} SizeAppend(a: seq<Node>, b: seq<Node>)
    ensures Size(a + b) == Size(a) + Size(b)
  {
    if a == [] {
      assert a + b == b;
    } else {
      assert (a + b)[1..] == a[1..] + b;
      SizeAppend(a[1..], b);
    }
  }

  lemma {:induction false} FlatAppend(a: seq<Node>, b: seq<Node>, depth: nat)
    ensures Flat(a + b, depth) == Flat(a, depth) + Flat(b, depth)
  {
    if a == [] {
      assert a + b == b;
    } else {
      assert (a + b)[1..] == a[1..] + b;
      FlatAppend(a[1..], b, depth);
      assert FlatNode(a[0], depth) + (Flat(a[1..], depth) + Flat(b, depth))
             == FlatNode(a[0], depth) + Flat(a[1..], depth) + Flat(b, depth);
    }
  }

  lemma {:induction false} FlatOne(n: Node, depth: nat)
    ensures Flat([n], depth) == FlatNode(n, depth)
    ensures Size([n]) == NodeSize(n)
  {
    assert [n][1..] == [];
  }

  /** The nodes before, at and after an index, laid out. */
  lemma {:induction false} FlatAround(ns: seq<Node>, i: nat, depth: nat)
    requires i < |ns|
    ensures Size(ns) == Size(ns[..i]) + NodeSize(ns[i]) + Size(ns[i + 1..])
    ensures Flat(ns, depth) == Flat(ns[..i], depth) + FlatNode(ns[i], depth) + Flat(ns[i + 1..], depth)
  {
    assert ns == ns[..i] + ([ns[i]] + ns[i + 1..]);
    SizeAppend(ns[..i], [ns[i]] + ns[i + 1..]);
    SizeAppend([ns[i]], ns[i + 1..]);
    FlatAppend(ns[..i], [ns[i]] + ns[i + 1..], depth);
    FlatAppend([ns[i]], ns[i + 1..], depth);
    FlatOne(ns[i], depth);
    assert Flat(ns[..i], depth) + (FlatNode(ns[i], depth) + Flat(ns[i + 1..], depth))
           == Flat(ns[..i], depth) + FlatNode(ns[i], depth) + Flat(ns[i + 1..], depth);
  }

  /** The first entry of the node at an index, and where the next one starts. */
  lemma {:induction false} SiblingAt(ns: seq<Node>, i: nat, depth: nat)
    requires i < |ns|
    ensures Size(ns[..i]) < Size(ns)
    ensures Flat(ns, depth)[Size(ns[..i])] == Head(ns[i], depth)
    ensures Head(ns[i], depth).Span() == NodeSize(ns[i]) || Head(ns[i], depth).IsField()
    ensures Size(ns[..i + 1]) == Size(ns[..i]) + NodeSize(ns[i])
  {
    FlatAround(ns, i, depth);
    assert ns[..i + 1] == ns[..i] + [ns[i]];
    SizeAppend(ns[..i], [ns[i]]);
    FlatOne(ns[i], depth);
  }

  // ---------------------------------------------------------------------
  // Blocks within a tree
  // ---------------------------------------------------------------------

  /** The way down to a block: at each level, which child to go into. */
  type Path = seq<nat>

  predicate ValidPath(ns: seq<Node>, p: Path)
    decreases p
  {
    p != [] ==> p[0] < |ns| && !ns[p[0]].entry.kind.Gap? && ValidPath(ns[p[0]].kids, p[1..])
  }

  /** The nodes of the block a path leads to. */
  function Block(ns: seq<Node>, p: Path): seq<Node>
    requires ValidPath(ns, p)
    decreases p
  {
    if p == [] then ns else Block(ns[p[0]].kids, p[1..])
  }

  /** The same tree with another block there. */
  function SetBlock(ns: seq<Node>, p: Path, cs: seq<Node>): seq<Node>
    requires ValidPath(ns, p)
    decreases p
  {
    if p == [] then cs
    else ns[p[0] := ns[p[0]].(kids := SetBlock(ns[p[0]].kids, p[1..], cs))]
  }

  /** Where a block's entries start. */
  function Offset(ns: seq<Node>, p: Path): nat
    requires ValidPath(ns, p)
    decreases p
  {
    if p == [] then 0 else Size(ns[..p[0]]) + 1 + Offset(ns[p[0]].kids, p[1..])
  }

  function BlockDepth(ns: seq<Node>, p: Path, depth: nat): nat
    requires ValidPath(ns, p)
    decreases p
  {
    if p == [] then depth else BlockDepth(ns[p[0]].kids, p[1..], KidDepth(ns[p[0]], depth))
  }

  /** Where the entries on the way down to a block are. */
  function Ancestors(ns: seq<Node>, p: Path, base: nat): (s: seq<nat>)
    requires ValidPath(ns, p)
    ensures |s| == |p|
    decreases p
  {
    if p == [] then []
    else
      var at := base + Size(ns[..p[0]]);
      [at] + Ancestors(ns[p[0]].kids, p[1..], at + 1)
  }

  /** Every node on the way down is a group or an instance: its entry carries a span. */
  predicate Spanned(ns: seq<Node>, p: Path)
    requires ValidPath(ns, p)
    decreases p
  {
    p != [] ==> (ns[p[0]].entry.kind.Group? || ns[p[0]].entry.kind.Instance?) && Spanned(ns[p[0]].kids, p[1..])
  }

  // ---------------------------------------------------------------------
  // Replacing a block
  // ---------------------------------------------------------------------

  function Plus(k: nat, n: int): nat {
    if k + n < 0 then 0 else k + n
  }

  /** An entry that covers `n` more, or fewer, entries. */
  function Grow(e: Entry, n: int): Entry {
    e.(len := Plus(e.len, n))
  }

  /** A group's entry with its count set; any other as it is. */
  function Recount(e: Entry, count: nat): Entry {
    if e.kind.Group? then e.(off := count) else e
  }

  /** The tape before a block, with every ancestor's span off by `n` and the nearest one's count `count`. */
  function Prefix(ns: seq<Node>, p: Path, depth: nat, n: int, count: nat): (s: seq<Entry>)
    requires ValidPath(ns, p)
    ensures |s| == Offset(ns, p)
    decreases p
  {
    if p == [] then []
    else
      var node := ns[p[0]];
      var e := Grow(Head(node, depth), n);
      Flat(ns[..p[0]], depth) + [if |p| == 1 then Recount(e, count) else e]
      + Prefix(node.kids, p[1..], KidDepth(node, depth), n, count)
  }

  /** The tape after a block. */
  function Suffix(ns: seq<Node>, p: Path, depth: nat): (s: seq<Entry>)
    requires ValidPath(ns, p)
    decreases p
  {
    if p == [] then []
    else Suffix(ns[p[0]].kids, p[1..], KidDepth(ns[p[0]], depth)) + Flat(ns[p[0] + 1..], depth)
  }

  /** How much a replacement adds to every ancestor. */
  function Delta(ns: seq<Node>, p: Path, cs: seq<Node>): int
    requires ValidPath(ns, p)
  {
    Size(cs) - Size(Block(ns, p))
  }

  lemma {:induction false} SetBlockSize(ns: seq<Node>, p: Path, cs: seq<Node>)
    requires ValidPath(ns, p)
    ensures Size(SetBlock(ns, p, cs)) == Size(ns) + Delta(ns, p, cs)
    ensures ValidPath(SetBlock(ns, p, cs), p) && Block(SetBlock(ns, p, cs), p) == cs
    ensures Size(ns) >= Offset(ns, p) + Size(Block(ns, p))
    decreases p
  {
    if p != [] {
      var i, n := p[0], ns[p[0]];
      SetBlockSize(n.kids, p[1..], cs);
      var n' := n.(kids := SetBlock(n.kids, p[1..], cs));
      FlatAround(ns, i, 0);
      FlatAround(ns[i := n'], i, 0);
      assert ns[i := n'][..i] == ns[..i] && ns[i := n'][i + 1..] == ns[i + 1..];
    }
  }

  /** The entry of a node with one block inside it exchanged. */
  lemma {:induction false} HeadOfReplaced(n: Node, q: Path, cs: seq<Node>, depth: nat)
    requires ValidPath(n.kids, q) && (n.entry.kind.Group? || n.entry.kind.Instance?)
    ensures var e := Grow(Head(n, depth), Delta(n.kids, q, cs));
            Head(n.(kids := SetBlock(n.kids, q, cs)), depth) == if q == [] then Recount(e, |cs|) else e
  {
    SetBlockSize(n.kids, q, cs);
  }

  /**
   * Replacing a block, at any depth, leaves the entries before and after it where they are and as
   * they are, but for the spans of the ones around it, and the count of the nearest.
   */
  lemma {:induction false} SetBlockFlat(ns: seq<Node>, p: Path, cs: seq<Node>, depth: nat)
    requires ValidPath(ns, p) && Spanned(ns, p)
    ensures Flat(SetBlock(ns, p, cs), depth)
            == Prefix(ns, p, depth, Delta(ns, p, cs), |cs|) + Flat(cs, BlockDepth(ns, p, depth)) + Suffix(ns, p, depth)
    decreases p
  {
    if p != [] {
      SetBlockFlat(ns[p[0]].kids, p[1..], cs, KidDepth(ns[p[0]], depth));
      SetBlockBelow(ns, p, cs, depth);
    }
  }

  lemma {:induction false} PrefixBelow(ns: seq<Node>, p: Path, cs: seq<Node>, depth: nat)
    requires p != [] && ValidPath(ns, p) && Spanned(ns, p)
    ensures var n, q, d := ns[p[0]], p[1..], KidDepth(ns[p[0]], depth);
            Prefix(ns, p, depth, Delta(ns, p, cs), |cs|)
            == Flat(ns[..p[0]], depth) + [Head(n.(kids := SetBlock(n.kids, q, cs)), depth)]
               + Prefix(n.kids, q, d, Delta(n.kids, q, cs), |cs|)
  {
    hide Head, Flat, Recount, Grow;
    HeadOfReplaced(ns[p[0]], p[1..], cs, depth);
  }

  lemma {:induction false} SetBlockBelow(ns: seq<Node>, p: Path, cs: seq<Node>, depth: nat)
    requires p != [] && ValidPath(ns, p) && Spanned(ns, p)
    requires var n, q, d := ns[p[0]], p[1..], KidDepth(ns[p[0]], depth);
             Flat(SetBlock(n.kids, q, cs), d)
             == Prefix(n.kids, q, d, Delta(n.kids, q, cs), |cs|) + Flat(cs, BlockDepth(n.kids, q, d))
                + Suffix(n.kids, q, d)
    ensures Flat(SetBlock(ns, p, cs), depth)
            == Prefix(ns, p, depth, Delta(ns, p, cs), |cs|) + Flat(cs, BlockDepth(ns, p, depth)) + Suffix(ns, p, depth)
  {
    hide Head, Flat, Prefix, Delta;
    var i, n, q, d := p[0], ns[p[0]], p[1..], KidDepth(ns[p[0]], depth);
    var kids := SetBlock(n.kids, q, cs);
    assert SetBlock(ns, p, cs) == ns[i := n.(kids := kids)];
    hide SetBlock;
    PrefixBelow(ns, p, cs, depth);
    FlatReplaced(ns, i, kids, depth);
    Regroup(Flat(ns[..i], depth), [Head(n.(kids := kids), depth)],
            Prefix(n.kids, q, d, Delta(n.kids, q, cs), |cs|),
            Flat(cs, BlockDepth(n.kids, q, d)), Suffix(n.kids, q, d), Flat(ns[i + 1..], depth));
  }

  /** The tape with one node's children exchanged. */
  lemma {:induction false} FlatReplaced(ns: seq<Node>, i: nat, kids: seq<Node>, depth: nat)
    requires i < |ns| && !ns[i].entry.kind.Gap?
    ensures Flat(ns[i := ns[i].(kids := kids)], depth)
            == Flat(ns[..i], depth) + ([Head(ns[i].(kids := kids), depth)] + Flat(kids, KidDepth(ns[i], depth)))
               + Flat(ns[i + 1..], depth)
  {
    var ns' := ns[i := ns[i].(kids := kids)];
    hide Head;
    FlatAround(ns', i, depth);
    assert ns'[..i] == ns[..i] && ns'[i + 1..] == ns[i + 1..];
  }

  lemma {:induction false} Regroup4(a: seq<Entry>, b: seq<Entry>, c: seq<Entry>, d: seq<Entry>)
    ensures a + (b + c + d) == (a + b) + c + d
  {
  }

  lemma {:induction false} Regroup(a: seq<Entry>, h: seq<Entry>, b: seq<Entry>, c: seq<Entry>, d: seq<Entry>,
                                   e: seq<Entry>)
    ensures a + (h + (b + c + d)) + e == (a + h + b) + c + (d + e)
  {
  }

  lemma {:induction false} SetBlockSame(ns: seq<Node>, p: Path)
    requires ValidPath(ns, p)
    ensures SetBlock(ns, p, Block(ns, p)) == ns
    decreases p
  {
    if p != [] {
      SetBlockSame(ns[p[0]].kids, p[1..]);
    }
  }

  /** A block lies whole within the tape, at its offset. */
  lemma {:induction false} BlockInFlat(ns: seq<Node>, p: Path, depth: nat)
    requires ValidPath(ns, p) && Spanned(ns, p)
    ensures Flat(ns, depth)
            == Prefix(ns, p, depth, 0, |Block(ns, p)|) + Flat(Block(ns, p), BlockDepth(ns, p, depth)) + Suffix(ns, p, depth)
  {
    SetBlockFlat(ns, p, Block(ns, p), depth);
    SetBlockSame(ns, p);
  }

  // ---------------------------------------------------------------------
  // Patching the ancestors in place
  // ---------------------------------------------------------------------

  /** Each of the entries at these indices grows by `n`. */
  function GrowAll(tape: seq<Entry>, at: seq<nat>, n: int): (s: seq<Entry>)
    requires forall i :: 0 <= i < |at| ==> at[i] < |tape|
    ensures |s| == |tape|
    decreases |at|
  {
    if at == [] then tape else GrowAll(tape[at[0] := Grow(tape[at[0]], n)], at[1..], n)
  }

  /** Ancestors lie before their block. */
  lemma {:induction false} AncestorsBefore(ns: seq<Node>, p: Path, base: nat)
    requires ValidPath(ns, p)
    ensures forall i :: 0 <= i < |p| ==> base <= Ancestors(ns, p, base)[i] < base + Offset(ns, p)
    decreases p
  {
    if p != [] {
      var at := base + Size(ns[..p[0]]);
      AncestorsBefore(ns[p[0]].kids, p[1..], at + 1);
      var rest := Ancestors(ns[p[0]].kids, p[1..], at + 1);
      forall i | 0 <= i < |p|
        ensures base <= Ancestors(ns, p, base)[i] < base + Offset(ns, p)
      {
        assert Ancestors(ns, p, base)[i] == if i == 0 then at else rest[i - 1];
      }
    }
  }

  lemma {:induction false} UpdateWithin(a: seq<Entry>, h: Entry, b: seq<Entry>, h': Entry)
    ensures (a + [h] + b)[|a| := h'] == a + [h'] + b
  {
  }

  lemma {:induction false} GrowFirst(before: seq<Entry>, h: Entry, rest: seq<Entry>, at: seq<nat>, n: int)
    requires at != [] && at[0] == |before|
    requires forall i :: 0 <= i < |at| ==> at[i] < |before| + 1 + |rest|
    ensures GrowAll(before + [h] + rest, at, n) == GrowAll(before + [Grow(h, n)] + rest, at[1..], n)
  {
    hide Grow;
    UpdateWithin(before, h, rest, Grow(h, n));
    var t := before + [h] + rest;
    assert t[at[0]] == h;
  }

  /** Growing the ancestors one by one is growing the prefix. */
  lemma {:induction false} GrowPrefix(ns: seq<Node>, p: Path, depth: nat, n: int, count: nat, outer: seq<Entry>)
    requires ValidPath(ns, p)
    ensures forall i :: 0 <= i < |p| ==> Ancestors(ns, p, |outer|)[i] < |outer + Prefix(ns, p, depth, 0, count)|
    ensures GrowAll(outer + Prefix(ns, p, depth, 0, count), Ancestors(ns, p, |outer|), n)
            == outer + Prefix(ns, p, depth, n, count)
    decreases p
  {
    AncestorsBefore(ns, p, |outer|);
    if p != [] {
      hide Head, Flat;
      var node, q, d := ns[p[0]], p[1..], KidDepth(ns[p[0]], depth);
      var before, e := Flat(ns[..p[0]], depth), Head(node, depth);
      var h := if |p| == 1 then Recount(Grow(e, 0), count) else Grow(e, 0);
      var h' := if |p| == 1 then Recount(Grow(e, n), count) else Grow(e, n);
      assert h' == Grow(h, n);
      hide Grow, Recount, GrowAll;
      Regroup4(outer, before, [h], Prefix(node.kids, q, d, 0, count));
      GrowFirst(outer + before, h, Prefix(node.kids, q, d, 0, count), Ancestors(ns, p, |outer|), n);
      GrowPrefix(node.kids, q, d, n, count, outer + before + [h']);
      assert Ancestors(ns, p, |outer|)[1..] == Ancestors(node.kids, q, |outer + before + [h']|);
      Regroup4(outer, before, [h'], Prefix(node.kids, q, d, n, count));
    }
  }

  lemma {:induction false} GrowAppend(a: seq<Entry>, b: seq<Entry>, at: seq<nat>, n: int)
    requires forall i :: 0 <= i < |at| ==> at[i] < |a|
    ensures GrowAll(a + b, at, n) == GrowAll(a, at, n) + b
    decreases |at|
  {
    if at != [] {
      var a' := a[at[0] := Grow(a[at[0]], n)];
      assert (a + b)[at[0] := Grow(a[at[0]], n)] == a' + b;
      GrowAppend(a', b, at[1..], n);
    }
  }

  /** Setting the nearest ancestor's count is setting the prefix's. */
  lemma {:induction false} RecountPrefix(ns: seq<Node>, p: Path, depth: nat, n: int, count: nat, count': nat, base: nat)
    requires ValidPath(ns, p) && p != []
    ensures var at := Ancestors(ns, p, base)[|p| - 1] - base;
            && 0 <= at < Offset(ns, p)
            && Prefix(ns, p, depth, n, count')
               == Prefix(ns, p, depth, n, count)[at := Recount(Prefix(ns, p, depth, n, count)[at], count')]
    decreases p
  {
    if |p| == 1 {
      RecountNearest(ns, p, depth, n, count, count', base);
    } else {
      RecountPrefix(ns[p[0]].kids, p[1..], KidDepth(ns[p[0]], depth), n, count, count', base + Size(ns[..p[0]]) + 1);
      RecountBelow(ns, p, depth, n, count, count', base);
    }
  }

  lemma {:induction false} RecountNearest(ns: seq<Node>, p: Path, depth: nat, n: int, count: nat, count': nat,
                                          base: nat)
    requires ValidPath(ns, p) && |p| == 1
    ensures var at := Ancestors(ns, p, base)[|p| - 1] - base;
            && 0 <= at < Offset(ns, p)
            && Prefix(ns, p, depth, n, count')
               == Prefix(ns, p, depth, n, count)[at := Recount(Prefix(ns, p, depth, n, count)[at], count')]
  {
    hide Head, Flat, Grow, Recount, Size;
    var node, q, d := ns[p[0]], p[1..], KidDepth(ns[p[0]], depth);
    NoneBelow(node.kids, q, d, n, count);
    NoneBelow(node.kids, q, d, n, count');
    RecountLast(Flat(ns[..p[0]], depth), Grow(Head(node, depth), n), count, count');
  }

  lemma {:induction false} AncestorFurther(ns: seq<Node>, p: Path, base: nat)
    requires ValidPath(ns, p) && |p| > 1
    ensures Ancestors(ns, p, base)[|p| - 1]
            == Ancestors(ns[p[0]].kids, p[1..], base + Size(ns[..p[0]]) + 1)[|p| - 2]
    ensures Offset(ns, p) == Size(ns[..p[0]]) + 1 + Offset(ns[p[0]].kids, p[1..])
  {
  }

  lemma {:induction false} RecountBelow(ns: seq<Node>, p: Path, depth: nat, n: int, count: nat, count': nat, base: nat)
    requires ValidPath(ns, p) && |p| > 1
    requires var node, q, d, below := ns[p[0]], p[1..], KidDepth(ns[p[0]], depth), base + Size(ns[..p[0]]) + 1;
             var at := Ancestors(node.kids, q, below)[|q| - 1] - below;
             && 0 <= at < Offset(node.kids, q)
             && Prefix(node.kids, q, d, n, count')
                == Prefix(node.kids, q, d, n, count)[at := Recount(Prefix(node.kids, q, d, n, count)[at], count')]
    ensures var at := Ancestors(ns, p, base)[|p| - 1] - base;
            && 0 <= at < Offset(ns, p)
            && Prefix(ns, p, depth, n, count')
               == Prefix(ns, p, depth, n, count)[at := Recount(Prefix(ns, p, depth, n, count)[at], count')]
  {
    hide Head, Flat, Grow, Recount, Size, Prefix, Ancestors, Offset;
    var node, q, d, below := ns[p[0]], p[1..], KidDepth(ns[p[0]], depth), base + Size(ns[..p[0]]) + 1;
    var before := Flat(ns[..p[0]], depth) + [Grow(Head(node, depth), n)];
    var at := Ancestors(node.kids, q, below)[|q| - 1];
    AncestorFurther(ns, p, base);
    PrefixFurther(ns, p, depth, n, count);
    PrefixFurther(ns, p, depth, n, count');
    UpdateBehind(before, Prefix(node.kids, q, d, n, count), at - below, count');
  }

  lemma {:induction false} PrefixFurther(ns: seq<Node>, p: Path, depth: nat, n: int, count: nat)
    requires ValidPath(ns, p) && |p| > 1
    ensures Prefix(ns, p, depth, n, count)
            == Flat(ns[..p[0]], depth) + [Grow(Head(ns[p[0]], depth), n)]
               + Prefix(ns[p[0]].kids, p[1..], KidDepth(ns[p[0]], depth), n, count)
  {
    hide Head, Flat, Grow, Recount, Size;
  }

  lemma {:induction false} NoneBelow(ns: seq<Node>, p: Path, depth: nat, n: int, count: nat)
    requires p == []
    ensures Prefix(ns, p, depth, n, count) == [] && Offset(ns, p) == 0
  {
  }

  lemma {:induction false} RecountLast(a: seq<Entry>, e: Entry, count: nat, count': nat)
    ensures a + [Recount(e, count')] + []
            == (a + [Recount(e, count)] + [])[|a| := Recount((a + [Recount(e, count)] + [])[|a|], count')]
  {
    UpdateWithin(a, Recount(e, count), [], Recount(e, count'));
  }

  lemma {:induction false} UpdateBehind(a: seq<Entry>, x: seq<Entry>, at: nat, count: nat)
    requires at < |x|
    ensures (a + x)[|a| + at := Recount((a + x)[|a| + at], count)] == a + x[at := Recount(x[at], count)]
  {
    hide Recount;
  }

  // ---------------------------------------------------------------------
  // A block's owner
  // ---------------------------------------------------------------------

  /** The group or instance whose contents a path leads to. */
  function Owner(ns: seq<Node>, p: Path): (n: Node)
    requires ValidPath(ns, p) && p != []
    ensures n.kids == Block(ns, p) && !n.entry.kind.Gap?
    decreases p
  {
    if |p| == 1 then ns[p[0]] else Owner(ns[p[0]].kids, p[1..])
  }

  function OwnerDepth(ns: seq<Node>, p: Path, depth: nat): (d: nat)
    requires ValidPath(ns, p) && p != []
    ensures BlockDepth(ns, p, depth) == KidDepth(Owner(ns, p), d)
    decreases p
  {
    if |p| == 1 then depth else OwnerDepth(ns[p[0]].kids, p[1..], KidDepth(ns[p[0]], depth))
  }

  /** What is below a node, within the tape around it. */
  lemma {:induction false} Below(ns: seq<Node>, i: nat, k: nat, depth: nat)
    requires i < |ns| && !ns[i].entry.kind.Gap? && k < Size(ns[i].kids)
    ensures Size(ns[..i]) + 1 + k < Size(ns)
    ensures Flat(ns, depth)[Size(ns[..i]) + 1 + k] == Flat(ns[i].kids, KidDepth(ns[i], depth))[k]
  {
    FlatAround(ns, i, depth);
    hide Flat, Head;
    var a, h, b, c := Flat(ns[..i], depth), Head(ns[i], depth), Flat(ns[i].kids, KidDepth(ns[i], depth)),
                      Flat(ns[i + 1..], depth);
    assert FlatNode(ns[i], depth) == [h] + b;
    assert (a + ([h] + b) + c)[|a| + 1 + k] == b[k];
  }

  /** The entry just before a block is its owner's. */
  lemma {:induction false} OwnerAt(ns: seq<Node>, p: Path, depth: nat, base: nat)
    requires ValidPath(ns, p) && p != []
    ensures var at := Ancestors(ns, p, base)[|p| - 1];
            && at + 1 == base + Offset(ns, p)
            && base <= at < base + Size(ns)
            && Flat(ns, depth)[at - base] == Head(Owner(ns, p), OwnerDepth(ns, p, depth))
    decreases p
  {
    hide Head, Flat, FlatNode, Size;
    var i, n, q, d := p[0], ns[p[0]], p[1..], KidDepth(ns[p[0]], depth);
    SiblingAt(ns, i, depth);
    if |p| > 1 {
      var below := base + Size(ns[..i]) + 1;
      OwnerAt(n.kids, q, d, below);
      var k := Ancestors(n.kids, q, below)[|q| - 1];
      assert Ancestors(ns, p, base)[|p| - 1] == k;
      Below(ns, i, k - below, depth);
    }
  }

  // ---------------------------------------------------------------------
  // What an edit leaves in place
  // ---------------------------------------------------------------------

  /** An edit inside a block moves neither the block nor what is around it. */
  lemma {:induction false} SetBlockStays(ns: seq<Node>, p: Path, cs: seq<Node>, base: nat, depth: nat)
    requires ValidPath(ns, p)
    ensures ValidPath(SetBlock(ns, p, cs), p) && Block(SetBlock(ns, p, cs), p) == cs
    ensures Offset(SetBlock(ns, p, cs), p) == Offset(ns, p)
    ensures Ancestors(SetBlock(ns, p, cs), p, base) == Ancestors(ns, p, base)
    ensures BlockDepth(SetBlock(ns, p, cs), p, depth) == BlockDepth(ns, p, depth)
    ensures Spanned(SetBlock(ns, p, cs), p) == Spanned(ns, p)
    ensures p != [] ==> Owner(SetBlock(ns, p, cs), p).entry == Owner(ns, p).entry
    decreases p
  {
    if p != [] {
      var i, n := p[0], ns[p[0]];
      SetBlockStays(n.kids, p[1..], cs, base + Size(ns[..i]) + 1, KidDepth(n, depth));
      assert SetBlock(ns, p, cs)[..i] == ns[..i];
    }
  }

  /** An edit further in is an edit of each block on the way. */
  lemma {:induction false} SetBlockFurther(ns: seq<Node>, p: Path, q: Path, cs: seq<Node>)
    requires ValidPath(ns, p + q)
    ensures ValidPath(ns, p) && ValidPath(Block(ns, p), q)
    ensures Block(ns, p + q) == Block(Block(ns, p), q)
    ensures SetBlock(ns, p + q, cs) == SetBlock(ns, p, SetBlock(Block(ns, p), q, cs))
    decreases p
  {
    if p == [] {
      assert p + q == q;
    } else {
      assert (p + q)[1..] == p[1..] + q;
      SetBlockFurther(ns[p[0]].kids, p[1..], q, cs);
    }
  }
}
