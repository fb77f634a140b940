/**
 * The canonical order, spelt out (message/normalize.rs:11-101): in every block the fields the definition
 * places come first, in its order, and the others follow by number. A block is left as it is exactly when
 * it is in that order already, with the groups in it in theirs.
 */
module NormalOrder {
  import opened Tape
  import opened Document
  import opened Editing
  import opened Messages
  import opened Groups
  import opened Shape
  import opened Parsing
  import opened Normalizing
  import opened Canonical

  /** A field that may come before another. */
  predicate MayPrecede(order: Members, a: nat, b: nat) {
    if a in order then b in order ==> order[a] < order[b] || (order[a] == order[b] && a <= b)
    else b !in order && a <= b
  }

  /** A node that is sorted by its own tag: anything but data, which follows its Length. */
  predicate Leads(n: Node) {
    !n.entry.kind.Data? && !n.entry.kind.Gap?
  }

  predicate InPlace(order: Members, ns: seq<Node>) {
    forall i, j :: 0 <= i < j < |ns| && Leads(ns[i]) && Leads(ns[j]) ==> MayPrecede(order, ns[i].entry.tag, ns[j].entry.tag)
  }

  /** In place, and so is what is in the instances of its groups. */
  predicate AllInPlace(r: Rules, w: Where, order: Members, ns: seq<Node>)
    decreases ns, 2
  {
    InPlace(order, ns) && NodesInPlace(r, w, ns)
  }

  predicate NodesInPlace(r: Rules, w: Where, ns: seq<Node>)
    decreases ns, 1
  {
    forall i :: 0 <= i < |ns| ==> NodeInPlace(r, w, ns[i])
  }

  predicate NodeInPlace(r: Rules, w: Where, n: Node)
    decreases n, 0
  {
    n.entry.kind.Group? ==>
      var g := GroupAt(r, w, n.entry.tag);
      forall i :: 0 <= i < |n.kids| ==> AllInPlace(r, Inside(g), OrderOf(r, g), n.kids[i].kids)
  }

  // ---------------------------------------------------------------------
  // One block
  // ---------------------------------------------------------------------

  lemma {:induction false} NotLess(order: Members, a: nat, b: nat)
    ensures MayPrecede(order, a, b) <==> !Less(order, b, a)
  {
  }

  /** All that leads in these nodes may come behind a tag. */
  predicate AllBehind(order: Members, tag: nat, ns: seq<Node>) {
    forall i :: 0 <= i < |ns| && Leads(ns[i]) ==> MayPrecede(order, tag, ns[i].entry.tag)
  }

  lemma {:induction false} JoinBehind(order: Members, tag: nat, ps: seq<Piece>)
    requires ArePieces(ps)
    ensures AllFrom(order, tag, ps) <==> AllBehind(order, tag, Join(ps))
    decreases |ps|
  {
    if ps != [] {
      var p, rest := ps[0], Join(ps[1..]);
      JoinBehind(order, tag, ps[1..]);
      NotLess(order, tag, TagOf(p));
      hide Less, MayPrecede, Join;
      PieceBehind(order, tag, p);
      BehindBoth(order, tag, p, rest);
      FromBoth(order, tag, ps);
      assert Join(ps) == p + rest by { JoinUnfolds(ps); }
    }
  }

  lemma {:induction false} JoinUnfolds(ps: seq<Piece>)
    requires ps != []
    ensures Join(ps) == ps[0] + Join(ps[1..])
  {
  }

  lemma {:induction false} PieceBehind(order: Members, tag: nat, p: Piece)
    requires IsPiece(p)
    ensures AllBehind(order, tag, p) <==> MayPrecede(order, tag, TagOf(p))
  {
    hide MayPrecede;
    assert Leads(p[0]);
  }

  lemma {:induction false} BehindBoth(order: Members, tag: nat, a: seq<Node>, b: seq<Node>)
    ensures AllBehind(order, tag, a + b) <==> AllBehind(order, tag, a) && AllBehind(order, tag, b)
  {
    hide MayPrecede, Leads;
    if AllBehind(order, tag, a + b) {
      assert forall i :: 0 <= i < |a| ==> a[i] == (a + b)[i];
      assert forall i :: 0 <= i < |b| ==> b[i] == (a + b)[|a| + i];
    }
  }

  lemma {:induction false} FromBoth(order: Members, tag: nat, ps: seq<Piece>)
    requires ps != []
    ensures AllFrom(order, tag, ps) <==> !Less(order, TagOf(ps[0]), tag) && AllFrom(order, tag, ps[1..])
  {
    hide Less, TagOf;
    if !Less(order, TagOf(ps[0]), tag) && AllFrom(order, tag, ps[1..]) {
      assert forall i :: 1 <= i < |ps| ==> ps[i] == ps[1..][i - 1];
    }
  }

  lemma {:induction false} SortedBoth(order: Members, ps: seq<Piece>)
    requires ps != []
    ensures Sorted(order, ps) <==> AllFrom(order, TagOf(ps[0]), ps[1..]) && Sorted(order, ps[1..])
  {
    hide Sorted, AllFrom;
    if Sorted(order, ps) {
      SortedRest(order, ps);
    }
    if AllFrom(order, TagOf(ps[0]), ps[1..]) && Sorted(order, ps[1..]) {
      SortedMore(order, ps[0], ps[1..]);
      assert [ps[0]] + ps[1..] == ps;
    }
  }

  /** A piece in front of nodes. */
  lemma {:induction false} InPlaceBoth(order: Members, p: Piece, rest: seq<Node>)
    requires IsPiece(p)
    ensures InPlace(order, p + rest) <==> AllBehind(order, TagOf(p), rest) && InPlace(order, rest)
  {
    hide MayPrecede;
    var all := p + rest;
    assert forall i :: 0 <= i < |rest| ==> all[|p| + i] == rest[i];
    assert forall i :: 1 <= i < |p| ==> !Leads(all[i]);
    assert all[0] == p[0] && Leads(all[0]);
    if InPlace(order, all) {
      assert forall i :: 0 <= i < |rest| ==> all[|p| + i] == rest[i] && |p| + i > 0;
    }
    if AllBehind(order, TagOf(p), rest) && InPlace(order, rest) {
      assert forall i :: |p| <= i < |all| ==> all[i] == rest[i - |p|];
    }
  }

  /** Pieces are sorted exactly when their nodes are in place. */
  lemma {:induction false} SortedInPlace(order: Members, ps: seq<Piece>)
    requires ArePieces(ps)
    ensures Sorted(order, ps) <==> InPlace(order, Join(ps))
    decreases |ps|
  {
    hide Sorted, InPlace, AllFrom, AllBehind, Join;
    if ps == [] {
      NoneSorted(order);
    } else {
      var p := ps[0];
      SortedInPlace(order, ps[1..]);
      JoinUnfolds(ps);
      SortedBoth(order, ps);
      InPlaceBoth(order, p, Join(ps[1..]));
      JoinBehind(order, TagOf(p), ps[1..]);
    }
  }

  lemma {:induction false} NoneSorted(order: Members)
    ensures Sorted(order, []) && InPlace(order, Join([]))
  {
  }

  // ---------------------------------------------------------------------
  // At any depth
  // ---------------------------------------------------------------------

  /** Whatever a block's order was, it is canonical once normalised, and so is every block in it. */
  lemma {:induction false} NormalInPlace(r: Rules, w: Where, order: Members, ns: seq<Node>)
    requires Paired(ns) && forall i :: 0 <= i < |ns| ==> ns[i].entry.kind.Gap? || ShapedNode(ns[i], false)
    ensures AllInPlace(r, w, order, Normal(r, w, order, ns))
    decreases ns, 2
  {
    hide NormalNode, Paired, Sort, ShapedNode, InPlace, Sorted, NodesInPlace, Join, Pieces;
    var kids := NormalNodes(r, w, ns);
    NormalNodesInPlace(r, w, ns);
    NormalPaired(r, w, ns);
    PiecesAre(kids);
    var ps := Pieces(kids);
    SortSorts(order, ps);
    SortArePieces(order, ps);
    SortedInPlace(order, Sort(order, ps));
    PiecesInPlace(r, w, kids);
    JoinInPlace(r, w, ps, Sort(order, ps));
  }

  lemma {:induction false} NormalNodesInPlace(r: Rules, w: Where, ns: seq<Node>)
    requires forall i :: 0 <= i < |ns| ==> ns[i].entry.kind.Gap? || ShapedNode(ns[i], false)
    ensures NodesInPlace(r, w, NormalNodes(r, w, ns))
    decreases ns, 1
  {
    hide NormalNode, ShapedNode, NodeInPlace;
    if ns != [] {
      assert ns[0].entry.kind.Gap? || ShapedNode(ns[0], false);
      NormalNodeInPlace(r, w, ns[0]);
      NormalNodesInPlace(r, w, ns[1..]);
    }
  }

  lemma {:induction false} NormalNodeInPlace(r: Rules, w: Where, n: Node)
    requires n.entry.kind.Gap? || ShapedNode(n, false)
    ensures NodeInPlace(r, w, NormalNode(r, w, n))
    decreases n, 0
  {
    if n.entry.kind.Group? {
      InstancesInPlace(r, GroupAt(r, w, n.entry.tag), n.kids);
    }
  }

  lemma {:induction false} InstancesInPlace(r: Rules, g: Option<nat>, ns: seq<Node>)
    requires Shaped(ns, true)
    ensures forall i :: 0 <= i < |ns| ==> AllInPlace(r, Inside(g), OrderOf(r, g), NormalInstances(r, g, ns)[i].kids)
    decreases ns, 3
  {
    if ns != [] {
      hide Normal, AllInPlace;
      ShapedAt(ns, true, 0);
      NormalInPlace(r, Inside(g), OrderOf(r, g), ns[0].kids);
      InstancesInPlace(r, g, ns[1..]);
    }
  }

  predicate PieceNodesInPlace(r: Rules, w: Where, ps: seq<Piece>) {
    forall i :: 0 <= i < |ps| ==> NodesInPlace(r, w, ps[i])
  }

  lemma {:induction false} PiecesInPlace(r: Rules, w: Where, ns: seq<Node>)
    requires NodesInPlace(r, w, ns)
    ensures PieceNodesInPlace(r, w, Pieces(ns))
    decreases |ns|
  {
    hide NodeInPlace;
    if ns != [] {
      PiecesInPlace(r, w, ns[1..]);
      if |ns| > 1 {
        PiecesInPlace(r, w, ns[2..]);
      }
    }
  }

  lemma {:induction false} JoinInPlace(r: Rules, w: Where, ps: seq<Piece>, qs: seq<Piece>)
    requires PieceNodesInPlace(r, w, ps) && multiset(qs) == multiset(ps)
    ensures NodesInPlace(r, w, Join(qs))
  {
    hide NodesInPlace;
    forall i | 0 <= i < |qs|
      ensures NodesInPlace(r, w, qs[i])
    {
      assert qs[i] in multiset(qs);
      assert qs[i] in ps;
    }
    JoinedInPlace(r, w, qs);
  }

  lemma {:induction false} JoinedInPlace(r: Rules, w: Where, ps: seq<Piece>)
    requires PieceNodesInPlace(r, w, ps)
    ensures NodesInPlace(r, w, Join(ps))
    decreases |ps|
  {
    hide NodeInPlace;
    if ps != [] {
      JoinedInPlace(r, w, ps[1..]);
    }
  }

  /** And one that is canonical already, without a gap, stays as it is. */
  lemma {:induction false} InPlaceStays(r: Rules, w: Where, order: Members, ns: seq<Node>)
    requires Shaped(ns, false) && AllInPlace(r, w, order, ns)
    ensures Normal(r, w, order, ns) == ns
    decreases ns, 2
  {
    hide NormalNode, Sort, ShapedNode, InPlace, Sorted, Join, Pieces, NodeInPlace;
    ShapedPaired(ns);
    NodesStay(r, w, ns);
    ShapedNoGap(ns);
    PiecesAre(ns);
    JoinPieces(ns);
    SortedInPlace(order, Pieces(ns));
    SortedStays(order, Pieces(ns));
  }

  lemma {:induction false} ShapedNoGap(ns: seq<Node>)
    requires Shaped(ns, false)
    ensures forall i :: 0 <= i < |ns| ==> !ns[i].entry.kind.Gap?
  {
    forall i | 0 <= i < |ns| ensures !ns[i].entry.kind.Gap? {
      ShapedAt(ns, false, i);
    }
  }

  lemma {:induction false} NodesStay(r: Rules, w: Where, ns: seq<Node>)
    requires (forall i :: 0 <= i < |ns| ==> ShapedNode(ns[i], false)) && NodesInPlace(r, w, ns)
    ensures NormalNodes(r, w, ns) == ns
    decreases ns, 1
  {
    hide NormalNode, ShapedNode, NodeInPlace;
    if ns != [] {
      assert ShapedNode(ns[0], false) && NodeInPlace(r, w, ns[0]);
      NodeStays(r, w, ns[0]);
      NodesStay(r, w, ns[1..]);
      assert ns == [ns[0]] + ns[1..];
    }
  }

  lemma {:induction false} NodeStays(r: Rules, w: Where, n: Node)
    requires ShapedNode(n, false) && NodeInPlace(r, w, n)
    ensures NormalNode(r, w, n) == n
    decreases n, 0
  {
    if n.entry.kind.Group? {
      InstancesStay(r, GroupAt(r, w, n.entry.tag), n.kids);
    }
  }

  lemma {:induction false} InstancesStay(r: Rules, g: Option<nat>, ns: seq<Node>)
    requires Shaped(ns, true)
    requires forall i :: 0 <= i < |ns| ==> AllInPlace(r, Inside(g), OrderOf(r, g), ns[i].kids)
    ensures NormalInstances(r, g, ns) == ns
    decreases ns, 3
  {
    if ns != [] {
      hide Normal, AllInPlace;
      ShapedAt(ns, true, 0);
      InPlaceStays(r, Inside(g), OrderOf(r, g), ns[0].kids);
      InstancesStay(r, g, ns[1..]);
      assert ns == [ns[0]] + ns[1..];
    }
  }

  /** A well-formed block is left as it is by normalising if and only if it is in the canonical order at every depth. */
  lemma {:induction false} UnchangedWhenInPlace(r: Rules, w: Where, order: Members, ns: seq<Node>)
    requires Shaped(ns, false)
    ensures Normal(r, w, order, ns) == ns <==> AllInPlace(r, w, order, ns)
  {
    hide Normal, AllInPlace, ShapedNode;
    ShapedPaired(ns);
    NormalInPlace(r, w, order, ns);
    if AllInPlace(r, w, order, ns) {
      InPlaceStays(r, w, order, ns);
    }
  }

  /** A normalised message: every region and every instance is in the order of its definition. */
  lemma {:induction false} NormalDocInPlace(r: Rules, o: Orders, doc: Doc)
    requires WellFormed(doc)
    ensures var n := NormalDoc(r, o, doc);
            && AllInPlace(r, Outside(true), o.header, n.header)
            && AllInPlace(r, Outside(false), o.body, n.body)
            && AllInPlace(r, Outside(false), o.trailer, n.trailer)
  {
    hide Normal, ShapedNode, AllInPlace, Paired;
    RegionShaped(doc);
    NormalInPlace(r, Outside(true), o.header, doc.header);
    NormalInPlace(r, Outside(false), o.body, doc.body);
    NormalInPlace(r, Outside(false), o.trailer, doc.trailer);
    GapInPlace(r, Outside(true), o.header, Normal(r, Outside(true), o.header, doc.header));
  }

  lemma {:induction false} GapInPlace(r: Rules, w: Where, order: Members, ns: seq<Node>)
    requires AllInPlace(r, w, order, ns)
    ensures AllInPlace(r, w, order, ns + [GapNode(HEADER_GAP)])
  {
    hide MayPrecede;
    var all := ns + [GapNode(HEADER_GAP)];
    assert forall i :: 0 <= i < |ns| ==> all[i] == ns[i];
    assert NodeInPlace(r, w, all[|ns|]);
    hide NodeInPlace;
  }
}
