/**
 * Canonical field order (message/normalize.rs): every block's fields are sorted by the place its
 * definition gives them, and within each group's instances by the group's own.
 */
module Normalizing {
  import opened Tape
  import opened Document
  import opened Editing
  import opened Messages
  import opened Groups
  import opened Shape
  import opened Parsing

  // ---------------------------------------------------------------------
  // The order of tags
  // ---------------------------------------------------------------------

  /** Fields the definition places come first, in its order; the others follow by number. */
  predicate Less(order: Members, a: nat, b: nat) {
    if a in order && b in order then order[a] < order[b] || (order[a] == order[b] && a < b)
    else if a in order then true
    else if b in order then false
    else a < b
  }

  // ---------------------------------------------------------------------
  // What moves as one
  // ---------------------------------------------------------------------

  /** One node, or a Length with the data it measures. */
  type Piece = seq<Node>

  predicate IsPiece(p: Piece) {
    || (|p| == 1 && !p[0].entry.kind.Gap? && !p[0].entry.kind.DataLen? && !p[0].entry.kind.Data?)
    || (|p| == 2 && p[0].entry.kind.DataLen? && p[1].entry.kind.Data?)
  }

  predicate ArePieces(ps: seq<Piece>) {
    forall i :: 0 <= i < |ps| ==> IsPiece(ps[i])
  }

  function TagOf(p: Piece): nat {
    if p == [] then 0 else p[0].entry.tag
  }

  function Pieces(ns: seq<Node>): seq<Piece> {
    if ns == [] then []
    else if ns[0].entry.kind.Gap? then Pieces(ns[1..])
    else if ns[0].entry.kind.DataLen? && |ns| > 1 then [ns[..2]] + Pieces(ns[2..])
    else [ns[..1]] + Pieces(ns[1..])
  }

  function Join(ps: seq<Piece>): seq<Node> {
    if ps == [] then [] else ps[0] + Join(ps[1..])
  }

  // ---------------------------------------------------------------------
  // Sorting
  // ---------------------------------------------------------------------

  /** A piece goes behind those that do not come after it. */
  function Insert(order: Members, ps: seq<Piece>, p: Piece): seq<Piece> {
    if ps == [] then [p]
    else if Less(order, TagOf(p), TagOf(ps[0])) then [p] + ps
    else [ps[0]] + Insert(order, ps[1..], p)
  }

  function Sort(order: Members, ps: seq<Piece>): seq<Piece> {
    if ps == [] then [] else Insert(order, Sort(order, ps[..|ps| - 1]), ps[|ps| - 1])
  }

  predicate Sorted(order: Members, ps: seq<Piece>) {
    forall i, j :: 0 <= i < j < |ps| ==> !Less(order, TagOf(ps[j]), TagOf(ps[i]))
  }

  /** The pieces with a tag, in their order. */
  function Only(ps: seq<Piece>, tag: nat): seq<Piece> {
    if ps == [] then [] else (if TagOf(ps[0]) == tag then [ps[0]] else []) + Only(ps[1..], tag)
  }

  /** None of them comes before a tag. */
  predicate AllFrom(order: Members, tag: nat, ps: seq<Piece>) {
    forall i :: 0 <= i < |ps| ==> !Less(order, TagOf(ps[i]), tag)
  }

  lemma {:induction false} SortedMore(order: Members, p: Piece, ps: seq<Piece>)
    requires Sorted(order, ps) && AllFrom(order, TagOf(p), ps)
    ensures Sorted(order, [p] + ps)
  {
    hide Less, TagOf;
  }

  lemma {:induction false} SortedRest(order: Members, ps: seq<Piece>)
    requires Sorted(order, ps) && ps != []
    ensures Sorted(order, ps[1..]) && AllFrom(order, TagOf(ps[0]), ps[1..])
  {
    hide Less, TagOf;
  }

  lemma {:induction false} AllFromLess(order: Members, tag: nat, ps: seq<Piece>)
    requires Sorted(order, ps) && ps != [] && Less(order, tag, TagOf(ps[0]))
    ensures AllFrom(order, tag, ps)
  {
    hide TagOf;
    forall i | 0 <= i < |ps|
      ensures !Less(order, TagOf(ps[i]), tag)
    {
      assert i > 0 ==> !Less(order, TagOf(ps[i]), TagOf(ps[0]));
    }
  }

  lemma {:induction false} InsertFrom(order: Members, tag: nat, ps: seq<Piece>, p: Piece)
    requires AllFrom(order, tag, ps) && !Less(order, TagOf(p), tag)
    ensures AllFrom(order, tag, Insert(order, ps, p))
    decreases |ps|
  {
    hide Less, TagOf;
    if ps != [] {
      InsertFrom(order, tag, ps[1..], p);
    }
  }

  lemma {:induction false} InsertSorted(order: Members, ps: seq<Piece>, p: Piece)
    requires Sorted(order, ps)
    ensures Sorted(order, Insert(order, ps, p))
    decreases |ps|
  {
    hide Sorted, Less, TagOf, AllFrom;
    if ps == [] {
      OneSorted(order, p);
    } else if Less(order, TagOf(p), TagOf(ps[0])) {
      AllFromLess(order, TagOf(p), ps);
      SortedMore(order, p, ps);
    } else {
      SortedRest(order, ps);
      InsertSorted(order, ps[1..], p);
      InsertFrom(order, TagOf(ps[0]), ps[1..], p);
      SortedMore(order, ps[0], Insert(order, ps[1..], p));
    }
  }

  lemma {:induction false} OneSorted(order: Members, p: Piece)
    ensures Sorted(order, [p])
  {
  }

  lemma {:induction false} InsertPermutes(order: Members, ps: seq<Piece>, p: Piece)
    ensures multiset(Insert(order, ps, p)) == multiset(ps) + multiset{p}
    decreases |ps|
  {
    hide Less, TagOf;
    if ps != [] {
      InsertPermutes(order, ps[1..], p);
      assert ps == [ps[0]] + ps[1..];
    }
  }

  /** Sorting: a permutation, in order. */
  lemma {:induction false} SortSorts(order: Members, ps: seq<Piece>)
    ensures Sorted(order, Sort(order, ps)) && multiset(Sort(order, ps)) == multiset(ps)
    decreases |ps|
  {
    if ps != [] {
      var k := |ps| - 1;
      SortSorts(order, ps[..k]);
      InsertSorted(order, Sort(order, ps[..k]), ps[k]);
      InsertPermutes(order, Sort(order, ps[..k]), ps[k]);
      assert ps == ps[..k] + [ps[k]];
    }
  }

  lemma {:induction false} OnlyAppend(a: seq<Piece>, b: seq<Piece>, tag: nat)
    ensures Only(a + b, tag) == Only(a, tag) + Only(b, tag)
    decreases |a|
  {
    if a == [] {
      assert a + b == b;
    } else {
      assert (a + b)[1..] == a[1..] + b;
      OnlyAppend(a[1..], b, tag);
    }
  }

  lemma {:induction false} OnlyInserted(order: Members, ps: seq<Piece>, p: Piece, tag: nat)
    requires Sorted(order, ps)
    ensures Only(Insert(order, ps, p), tag) == Only(ps, tag) + Only([p], tag)
    decreases |ps|
  {
    hide Only, Less;
    OnlyOne(p, tag);
    var x, one := Only(ps, tag), Only([p], tag);
    if ps == [] {
      OnlyNone(tag);
    } else if Less(order, TagOf(p), TagOf(ps[0])) {
      OnlyAppend([p], ps, tag);
      if TagOf(p) == tag {
        NoneOf(order, ps, TagOf(p));
      }
      assert x == [] || one == [] ==> one + x == x + one;
    } else {
      OnlyInserted(order, ps[1..], p, tag);
      OnlyAppend([ps[0]], Insert(order, ps[1..], p), tag);
      OnlyAppend([ps[0]], ps[1..], tag);
      assert ps == [ps[0]] + ps[1..];
      var a, b := Only([ps[0]], tag), Only(ps[1..], tag);
      assert a + (b + one) == a + b + one;
    }
  }

  lemma {:induction false} OnlyOne(p: Piece, tag: nat)
    ensures Only([p], tag) == if TagOf(p) == tag then [p] else []
  {
    assert [p][1..] == [];
  }

  lemma {:induction false} OnlyNone(tag: nat)
    ensures Only([], tag) == []
  {
  }

  /** A tag that comes before all of them is not among them. */
  lemma {:induction false} NoneOf(order: Members, ps: seq<Piece>, tag: nat)
    requires Sorted(order, ps) && ps != [] && Less(order, tag, TagOf(ps[0]))
    ensures Only(ps, tag) == []
    decreases |ps|
  {
    if |ps| > 1 {
      assert !Less(order, TagOf(ps[1]), TagOf(ps[0]));
      assert ps[1..][0] == ps[1];
      NoneOf(order, ps[1..], tag);
    } else {
      assert ps[1..] == [];
    }
  }

  /** And fields of one tag stay in their order. */
  lemma {:induction false} SortStable(order: Members, ps: seq<Piece>, tag: nat)
    ensures Only(Sort(order, ps), tag) == Only(ps, tag)
    decreases |ps|
  {
    if ps != [] {
      var k := |ps| - 1;
      SortStable(order, ps[..k], tag);
      SortSorts(order, ps[..k]);
      OnlyInserted(order, Sort(order, ps[..k]), ps[k], tag);
      assert ps == ps[..k] + [ps[k]];
      OnlyAppend(ps[..k], [ps[k]], tag);
    }
  }

  /** What is in order stays. */
  lemma {:induction false} SortedStays(order: Members, ps: seq<Piece>)
    requires Sorted(order, ps)
    ensures Sort(order, ps) == ps
    decreases |ps|
  {
    if ps != [] {
      var k := |ps| - 1;
      SortedStays(order, ps[..k]);
      InsertLast(order, ps[..k], ps[k]);
      assert ps == ps[..k] + [ps[k]];
    }
  }

  lemma {:induction false} InsertLast(order: Members, ps: seq<Piece>, p: Piece)
    requires forall i :: 0 <= i < |ps| ==> !Less(order, TagOf(p), TagOf(ps[i]))
    ensures Insert(order, ps, p) == ps + [p]
    decreases |ps|
  {
    if ps != [] {
      InsertLast(order, ps[1..], p);
      assert [ps[0]] + (ps[1..] + [p]) == ps + [p];
    }
  }

  // ---------------------------------------------------------------------
  // Blocks
  // ---------------------------------------------------------------------

  /** The dictionary's groups, and the order each gives its fields. */
  datatype Rules = Rules(dict: Dict, places: nat -> Members)

  /** Where a block is: in a region, or in an instance of a group, if the dictionary has it there. */
  datatype Where = Outside(header: bool) | Inside(group: Option<nat>)

  function GroupAt(r: Rules, w: Where, tag: nat): Option<nat> {
    match w
    case Outside(header) => Opened(r.dict, Top(header), tag)
    case Inside(None) => None
    case Inside(Some(g)) => Opened(r.dict, Within(g), tag)
  }

  /** The order of a group's fields; none, if the dictionary does not have the group there. */
  function OrderOf(r: Rules, g: Option<nat>): Members {
    if g.Some? then r.places(g.value) else map[]
  }

  /** A block in its canonical order, with the groups in it in theirs. */
  function Normal(r: Rules, w: Where, order: Members, ns: seq<Node>): seq<Node>
    decreases ns, 2
  {
    Join(Sort(order, Pieces(NormalNodes(r, w, ns))))
  }

  function NormalNodes(r: Rules, w: Where, ns: seq<Node>): (s: seq<Node>)
    ensures |s| == |ns| && forall i :: 0 <= i < |ns| ==> s[i].entry == ns[i].entry
    decreases ns, 1
  {
    if ns == [] then [] else [NormalNode(r, w, ns[0])] + NormalNodes(r, w, ns[1..])
  }

  function NormalNode(r: Rules, w: Where, n: Node): (m: Node)
    ensures m.entry == n.entry
    decreases n, 0
  {
    if n.entry.kind.Group? then n.(kids := NormalInstances(r, GroupAt(r, w, n.entry.tag), n.kids)) else n
  }

  function NormalInstances(r: Rules, g: Option<nat>, ns: seq<Node>): (s: seq<Node>)
    ensures |s| == |ns|
    decreases ns, 3
  {
    if ns == [] then []
    else [ns[0].(kids := Normal(r, Inside(g), OrderOf(r, g), ns[0].kids))] + NormalInstances(r, g, ns[1..])
  }

  lemma {:induction false} PiecesAre(ns: seq<Node>)
    requires Paired(ns)
    ensures ArePieces(Pieces(ns))
    decreases |ns|
  {
    if ns != [] {
      if ns[0].entry.kind.DataLen? {
        assert ns[1].entry.kind.Data?;
        PairedRest(ns, 2);
        PiecesAre(ns[2..]);
      } else {
        PairedRest(ns, 1);
        PiecesAre(ns[1..]);
      }
    }
  }

  /** What is left of a block once a whole piece is gone. */
  lemma {:induction false} PairedRest(ns: seq<Node>, k: nat)
    requires Paired(ns) && 1 <= k <= |ns| && !ns[k - 1].entry.kind.DataLen?
    ensures Paired(ns[k..])
  {
    var rest := ns[k..];
    assert forall i :: 0 <= i < |rest| ==> rest[i] == ns[i + k];
  }

  lemma {:induction false} PiecesJoined(ps: seq<Piece>)
    requires ArePieces(ps)
    ensures Pieces(Join(ps)) == ps
    decreases |ps|
  {
    if ps != [] {
      var p, rest := ps[0], Join(ps[1..]);
      PiecesJoined(ps[1..]);
      var ns := p + rest;
      assert ns[..|p|] == p && ns[|p|..] == rest && ns[0] == p[0];
      assert ps == [p] + ps[1..];
    }
  }

  // ---------------------------------------------------------------------
  // Sorting twice
  // ---------------------------------------------------------------------

  predicate AllNormal(r: Rules, w: Where, ns: seq<Node>) {
    forall i :: 0 <= i < |ns| ==> NormalNode(r, w, ns[i]) == ns[i]
  }

  predicate PiecesNormal(r: Rules, w: Where, ps: seq<Piece>) {
    forall i :: 0 <= i < |ps| ==> AllNormal(r, w, ps[i])
  }

  lemma {:induction false} NormalAlready(r: Rules, w: Where, ns: seq<Node>)
    requires AllNormal(r, w, ns)
    ensures NormalNodes(r, w, ns) == ns
    decreases |ns|
  {
    hide NormalNode;
    if ns != [] {
      NormalAlready(r, w, ns[1..]);
      assert ns == [ns[0]] + ns[1..];
    }
  }

  lemma {:induction false} PiecesKeepNormal(r: Rules, w: Where, ns: seq<Node>)
    requires AllNormal(r, w, ns)
    ensures PiecesNormal(r, w, Pieces(ns))
    decreases |ns|
  {
    hide NormalNode;
    if ns != [] {
      PiecesKeepNormal(r, w, ns[1..]);
      if |ns| > 1 {
        PiecesKeepNormal(r, w, ns[2..]);
      }
    }
  }

  lemma {:induction false} JoinNormal(r: Rules, w: Where, ps: seq<Piece>)
    requires PiecesNormal(r, w, ps)
    ensures AllNormal(r, w, Join(ps))
    decreases |ps|
  {
    hide NormalNode;
    if ps != [] {
      JoinNormal(r, w, ps[1..]);
    }
  }

  /** What holds of every piece holds once they are sorted. */
  lemma {:induction false} SortKeeps(r: Rules, w: Where, order: Members, ps: seq<Piece>)
    requires ArePieces(ps) && PiecesNormal(r, w, ps)
    ensures ArePieces(Sort(order, ps)) && PiecesNormal(r, w, Sort(order, ps))
  {
    hide IsPiece, AllNormal, Sort;
    SortSorts(order, ps);
    var s := Sort(order, ps);
    forall i | 0 <= i < |s|
      ensures IsPiece(s[i]) && AllNormal(r, w, s[i])
    {
      assert s[i] in multiset(s);
      assert s[i] in ps;
    }
  }

  /** The same blocks within, so still paired. */
  lemma {:induction false} NormalPaired(r: Rules, w: Where, ns: seq<Node>)
    requires Paired(ns)
    ensures Paired(NormalNodes(r, w, ns))
  {
  }

  /** Normalising what is normal changes nothing. */
  lemma {:induction false} NormalTwice(r: Rules, w: Where, order: Members, ns: seq<Node>)
    requires Paired(ns) && forall i :: 0 <= i < |ns| ==> ns[i].entry.kind.Gap? || ShapedNode(ns[i], false)
    ensures Normal(r, w, order, Normal(r, w, order, ns)) == Normal(r, w, order, ns)
    decreases ns, 2
  {
    hide NormalNode, Paired, Sort, ShapedNode;
    var kids := NormalNodes(r, w, ns);
    NodesTwice(r, w, ns);
    NormalPaired(r, w, ns);
    PiecesAre(kids);
    PiecesKeepNormal(r, w, kids);
    var ps := Pieces(kids);
    var s := Sort(order, ps);
    SortKeeps(r, w, order, ps);
    SortSorts(order, ps);
    JoinNormal(r, w, s);
    NormalAlready(r, w, Join(s));
    PiecesJoined(s);
    SortedStays(order, s);
  }

  lemma {:induction false} NodesTwice(r: Rules, w: Where, ns: seq<Node>)
    requires forall i :: 0 <= i < |ns| ==> ns[i].entry.kind.Gap? || ShapedNode(ns[i], false)
    ensures AllNormal(r, w, NormalNodes(r, w, ns))
    decreases ns, 1
  {
    hide NormalNode, ShapedNode;
    if ns != [] {
      assert ns[0].entry.kind.Gap? || ShapedNode(ns[0], false);
      NodeTwice(r, w, ns[0]);
      NodesTwice(r, w, ns[1..]);
    }
  }

  lemma {:induction false} NodeTwice(r: Rules, w: Where, n: Node)
    requires n.entry.kind.Gap? || ShapedNode(n, false)
    ensures NormalNode(r, w, NormalNode(r, w, n)) == NormalNode(r, w, n)
    decreases n, 0
  {
    if n.entry.kind.Group? {
      InstancesTwice(r, GroupAt(r, w, n.entry.tag), n.kids);
    }
  }

  lemma {:induction false} InstancesTwice(r: Rules, g: Option<nat>, ns: seq<Node>)
    requires Shaped(ns, true)
    ensures NormalInstances(r, g, NormalInstances(r, g, ns)) == NormalInstances(r, g, ns)
    decreases ns, 3
  {
    if ns != [] {
      hide Normal;
      ShapedAt(ns, true, 0);
      NormalTwice(r, Inside(g), OrderOf(r, g), ns[0].kids);
      InstancesTwice(r, g, ns[1..]);
    }
  }

  lemma {:induction false} SortArePieces(order: Members, ps: seq<Piece>)
    requires ArePieces(ps)
    ensures ArePieces(Sort(order, ps))
  {
    hide IsPiece, Sort;
    SortSorts(order, ps);
    var s := Sort(order, ps);
    forall i | 0 <= i < |s|
      ensures IsPiece(s[i])
    {
      assert s[i] in multiset(s);
      assert s[i] in ps;
    }
  }

  // ---------------------------------------------------------------------
  // What normalising leaves alone
  // ---------------------------------------------------------------------

  /** The pieces are those there were, in order. */
  lemma {:induction false} NormalRearranges(r: Rules, w: Where, order: Members, ns: seq<Node>)
    requires Paired(ns)
    ensures var ps := Pieces(Normal(r, w, order, ns));
            Sorted(order, ps) && multiset(ps) == multiset(Pieces(NormalNodes(r, w, ns)))
  {
    hide Paired, Pieces, Sort, NormalNodes, Sorted;
    var x := Pieces(NormalNodes(r, w, ns));
    NormalPaired(r, w, ns);
    PiecesAre(NormalNodes(r, w, ns));
    SortArePieces(order, x);
    PiecesJoined(Sort(order, x));
    SortSorts(order, x);
  }
}
