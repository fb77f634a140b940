/**
 * Normalising in place (message/normalize.rs): the entries of a block are cut into pieces, sorted
 * and copied, group by group, and the tape that comes of it is that of the normalised trees.
 */
module Canonical {
  import opened Tape
  import opened Document
  import opened Editing
  import opened Messages
  import opened Groups
  import opened Shape
  import opened Parsing
  import opened Normalizing

  // ---------------------------------------------------------------------
  // Sizes
  // ---------------------------------------------------------------------

  lemma {:induction false} JoinAppend(a: seq<Piece>, b: seq<Piece>)
    ensures Join(a + b) == Join(a) + Join(b)
    decreases |a|
  {
    if a == [] {
      assert a + b == b;
    } else {
      assert (a + b)[1..] == a[1..] + b;
      JoinAppend(a[1..], b);
    }
  }

  lemma {:induction false} InsertSize(order: Members, ps: seq<Piece>, p: Piece)
    ensures Size(Join(Insert(order, ps, p))) == Size(Join(ps)) + Size(p)
    decreases |ps|
  {
    hide Less, TagOf, Size;
    if ps == [] {
      JoinOne(p);
      NoSize();
    } else if Less(order, TagOf(p), TagOf(ps[0])) {
      assert ([p] + ps)[1..] == ps;
      SizeAppend(p, Join(ps));
    } else {
      InsertSize(order, ps[1..], p);
      SizeAppend(ps[0], Join(Insert(order, ps[1..], p)));
      SizeAppend(ps[0], Join(ps[1..]));
      assert ([ps[0]] + Insert(order, ps[1..], p))[1..] == Insert(order, ps[1..], p);
    }
  }

  lemma {:induction false} JoinOne(p: Piece)
    ensures Join([p]) == p
  {
    assert [p][1..] == [] && p + [] == p;
  }

  lemma {:induction false} NoSize()
    ensures Size([]) == 0 && Join([]) == []
  {
  }

  lemma {:induction false} SortSize(order: Members, ps: seq<Piece>)
    ensures Size(Join(Sort(order, ps))) == Size(Join(ps))
    decreases |ps|
  {
    hide Size, Insert;
    if ps != [] {
      var k := |ps| - 1;
      SortSize(order, ps[..k]);
      InsertSize(order, Sort(order, ps[..k]), ps[k]);
      assert ps == ps[..k] + [ps[k]];
      JoinAppend(ps[..k], [ps[k]]);
      JoinOne(ps[k]);
      SizeAppend(Join(ps[..k]), ps[k]);
    }
  }

  lemma {:induction false} JoinPieces(ns: seq<Node>)
    requires forall i :: 0 <= i < |ns| ==> !ns[i].entry.kind.Gap?
    ensures Join(Pieces(ns)) == ns
    decreases |ns|
  {
    if ns != [] {
      var k := if ns[0].entry.kind.DataLen? && |ns| > 1 then 2 else 1;
      JoinPieces(ns[k..]);
      assert Pieces(ns) == [ns[..k]] + Pieces(ns[k..]) && ([ns[..k]] + Pieces(ns[k..]))[1..] == Pieces(ns[k..]);
      assert ns == ns[..k] + ns[k..];
    }
  }

  /** Normalising changes no size, so no span. */
  lemma {:induction false} NormalSize(r: Rules, w: Where, order: Members, ns: seq<Node>)
    requires forall i :: 0 <= i < |ns| ==> ShapedNode(ns[i], false)
    ensures Size(Normal(r, w, order, ns)) == Size(ns)
    decreases ns, 2
  {
    hide ShapedNode, Size, Sort, Pieces, NormalNode;
    NodesSize(r, w, ns);
    var kids := NormalNodes(r, w, ns);
    forall i | 0 <= i < |kids|
      ensures !kids[i].entry.kind.Gap?
    {
      NoGapHere(ns[i]);
    }
    JoinPieces(kids);
    SortSize(order, Pieces(kids));
  }

  lemma {:induction false} NoGapHere(n: Node)
    requires ShapedNode(n, false)
    ensures !n.entry.kind.Gap?
  {
  }

  lemma {:induction false} NodesSize(r: Rules, w: Where, ns: seq<Node>)
    requires forall i :: 0 <= i < |ns| ==> ShapedNode(ns[i], false)
    ensures Size(NormalNodes(r, w, ns)) == Size(ns)
    decreases ns, 1
  {
    if ns != [] {
      hide NormalNode, NodeSize, ShapedNode;
      NodeKeepsSize(r, w, ns[0]);
      NodesSize(r, w, ns[1..]);
      assert ([NormalNode(r, w, ns[0])] + NormalNodes(r, w, ns[1..]))[1..] == NormalNodes(r, w, ns[1..]);
    }
  }

  lemma {:induction false} NodeKeepsSize(r: Rules, w: Where, n: Node)
    requires ShapedNode(n, false)
    ensures NodeSize(NormalNode(r, w, n)) == NodeSize(n)
    decreases n, 0
  {
    if n.entry.kind.Group? {
      InstancesSize(r, GroupAt(r, w, n.entry.tag), n.kids);
    }
  }

  lemma {:induction false} InstancesSize(r: Rules, g: Option<nat>, ns: seq<Node>)
    requires Shaped(ns, true)
    ensures Size(NormalInstances(r, g, ns)) == Size(ns)
    decreases ns, 3
  {
    if ns != [] {
      hide Normal;
      ShapedAt(ns, true, 0);
      NormalSize(r, Inside(g), OrderOf(r, g), ns[0].kids);
      InstancesSize(r, g, ns[1..]);
      var m := ns[0].(kids := Normal(r, Inside(g), OrderOf(r, g), ns[0].kids));
      assert ([m] + NormalInstances(r, g, ns[1..]))[1..] == NormalInstances(r, g, ns[1..]);
    }
  }

  // ---------------------------------------------------------------------
  // Pieces by number
  // ---------------------------------------------------------------------

  function TagsOf(ps: seq<Piece>): seq<nat> {
    seq(|ps|, i requires 0 <= i < |ps| => TagOf(ps[i]))
  }

  predicate Below(idx: seq<nat>, n: nat) {
    forall i :: 0 <= i < |idx| ==> idx[i] < n
  }

  /** A number goes behind those whose tags do not come after its own. */
  function InsertIndex(order: Members, tags: seq<nat>, n: nat, idx: seq<nat>, k: nat): (r: seq<nat>)
    requires Below(idx, n) && k < n <= |tags|
    ensures Below(r, n)
    decreases |idx|
  {
    if idx == [] then [k]
    else if Less(order, tags[k], tags[idx[0]]) then [k] + idx
    else [idx[0]] + InsertIndex(order, tags, n, idx[1..], k)
  }

  function SortIndex(order: Members, tags: seq<nat>, n: nat): (r: seq<nat>)
    requires n <= |tags|
    ensures Below(r, n)
  {
    if n == 0 then [] else InsertIndex(order, tags, n, SortIndex(order, tags, n - 1), n - 1)
  }

  function Picked(ps: seq<Piece>, idx: seq<nat>): seq<Piece>
    requires Below(idx, |ps|)
  {
    seq(|idx|, i requires 0 <= i < |idx| => ps[idx[i]])
  }

  lemma {:induction false} PickedInsert(order: Members, ps: seq<Piece>, n: nat, idx: seq<nat>, k: nat)
    requires Below(idx, n) && k < n <= |ps|
    ensures Picked(ps, InsertIndex(order, TagsOf(ps), n, idx, k)) == Insert(order, Picked(ps, idx), ps[k])
    decreases |idx|
  {
    hide Less;
    if idx != [] {
      PickedInsert(order, ps, n, idx[1..], k);
      assert Picked(ps, idx)[1..] == Picked(ps, idx[1..]);
    }
  }

  /** Sorting numbers by tag is sorting pieces. */
  lemma {:induction false} PickedSort(order: Members, ps: seq<Piece>, n: nat)
    requires n <= |ps|
    ensures Picked(ps, SortIndex(order, TagsOf(ps), n)) == Sort(order, ps[..n])
    decreases n
  {
    if n > 0 {
      hide InsertIndex, Insert;
      PickedSort(order, ps, n - 1);
      PickedInsert(order, ps, n, SortIndex(order, TagsOf(ps), n - 1), n - 1);
      assert ps[..n][..n - 1] == ps[..n - 1] && ps[..n][n - 1] == ps[n - 1];
    }
  }

  // ---------------------------------------------------------------------
  // A block on the tape
  // ---------------------------------------------------------------------

  /** A piece with the group in it, if it is one, normalised. */
  function NormalPiece(r: Rules, w: Where, p: Piece): Piece {
    if |p| == 1 then [NormalNode(r, w, p[0])] else p
  }

  /** Each piece is the normalised other. */
  predicate NormalOf(r: Rules, w: Where, ps: seq<Piece>, qs: seq<Piece>) {
    |qs| == |ps| && forall k :: 0 <= k < |ps| ==> qs[k] == NormalPiece(r, w, ps[k]) && TagOf(qs[k]) == TagOf(ps[k])
  }

  lemma {:induction false} NormalPieces(r: Rules, w: Where, ns: seq<Node>)
    requires Paired(ns)
    ensures NormalOf(r, w, Pieces(ns), Pieces(NormalNodes(r, w, ns)))
    decreases |ns|
  {
    if ns != [] {
      var k, ms := Taken(ns), NormalNodes(r, w, ns);
      FirstNormal(r, w, ns);
      hide Pieces, NormalNodes, Paired, NormalPiece, TagOf, Taken, NormalOf;
      PiecesStep(ns);
      PiecesStep(ms);
      NodesRest(r, w, ns, k);
      NormalPieces(r, w, ns[k..]);
      var ps, qs := Pieces(ns[k..]), Pieces(ms[k..]);
      assert [] + ps == ps && [] + qs == qs;
      NormalOfMore(r, w, ns[..k], ps, qs);
    }
  }

  lemma {:induction false} NormalOfMore(r: Rules, w: Where, p: Piece, ps: seq<Piece>, qs: seq<Piece>)
    requires NormalOf(r, w, ps, qs)
    ensures p != [] && TagOf(NormalPiece(r, w, p)) == TagOf(p) ==> NormalOf(r, w, [p] + ps, [NormalPiece(r, w, p)] + qs)
  {
    hide NormalPiece, TagOf;
  }

  lemma {:induction false} FirstNormal(r: Rules, w: Where, ns: seq<Node>)
    requires Paired(ns) && ns != []
    ensures var k, ms := Taken(ns), NormalNodes(r, w, ns);
            && ms != [] && Taken(ms) == k <= |ns| && Paired(ns[k..]) && ms[0].entry == ns[0].entry
            && ms[..k] == NormalPiece(r, w, ns[..k]) && TagOf(ms[..k]) == TagOf(ns[..k])
  {
    var k, ms := Taken(ns), NormalNodes(r, w, ns);
    NodesRest(r, w, ns, k);
    PairedRest(ns, k);
    assert ms[..k] == if k == 1 then [ms[0]] else [ms[0], ms[1]];
    assert ns[..k] == if k == 1 then [ns[0]] else [ns[0], ns[1]];
  }

  lemma {:induction false} NodesRest(r: Rules, w: Where, ns: seq<Node>, k: nat)
    requires k <= |ns|
    ensures NormalNodes(r, w, ns)[k..] == NormalNodes(r, w, ns[k..])
    ensures forall i :: 0 <= i < k ==> NormalNodes(r, w, ns)[i] == NormalNode(r, w, ns[i])
    decreases k
  {
    hide NormalNode;
    if k > 0 {
      NodesRest(r, w, ns[1..], k - 1);
      assert ns[1..][k - 1..] == ns[k..];
      var rest := NormalNodes(r, w, ns[1..]);
      assert NormalNodes(r, w, ns) == [NormalNode(r, w, ns[0])] + rest;
      assert ([NormalNode(r, w, ns[0])] + rest)[k..] == rest[k - 1..];
    }
  }

  /** Nodes laid out between two indices of a tape. */
  predicate Laid(tape: seq<Entry>, start: nat, end: nat, ns: seq<Node>, depth: nat) {
    && start <= end <= |tape| && tape[start..end] == Flat(ns, depth)
    && Paired(ns) && forall i :: 0 <= i < |ns| ==> ns[i].entry.kind.Gap? || ShapedNode(ns[i], false)
  }

  /** Where a piece is. */
  predicate SpotHolds(tape: seq<Entry>, spot: (nat, nat), p: Piece, depth: nat) {
    spot.0 + spot.1 <= |tape| && tape[spot.0..spot.0 + spot.1] == Flat(p, depth)
  }

  predicate Spots(tape: seq<Entry>, spots: seq<(nat, nat)>, ps: seq<Piece>, depth: nat) {
    |spots| == |ps| && forall k :: 0 <= k < |ps| ==> SpotHolds(tape, spots[k], ps[k], depth)
  }

  /** How many nodes move together, from the first on. */
  function Taken(ns: seq<Node>): nat
    requires ns != []
  {
    if ns[0].entry.kind.DataLen? && |ns| > 1 then 2 else 1
  }

  lemma {:induction false} LaidNext(tape: seq<Entry>, start: nat, end: nat, ns: seq<Node>, depth: nat)
    requires Laid(tape, start, end, ns, depth) && start < end
    ensures ns != [] && tape[start] == Head(ns[0], depth)
    ensures var k := Taken(ns);
            var mid := start + Size(ns[..k]);
            && k <= |ns| && start < mid <= end
            && SpotHolds(tape, (start, mid - start), ns[..k], depth) && Laid(tape, mid, end, ns[k..], depth)
            && mid - start == (if ns[0].entry.kind.DataLen? then 2 else tape[start].Span())
  {
    assert |Flat(ns, depth)| == end - start;
    var k := Taken(ns);
    assert tape[start..end][0] == tape[start];
    FirstParts(ns, depth);
    hide Flat;
    var a, b := Flat(ns[..k], depth), Flat(ns[k..], depth);
    SliceParts(tape, start, end, a, b);
    PairedRest(ns, k);
    assert forall i :: 0 <= i < |ns[k..]| ==> ns[k..][i] == ns[i + k];
  }

  lemma {:induction false} SliceParts(tape: seq<Entry>, start: nat, end: nat, a: seq<Entry>, b: seq<Entry>)
    requires start <= end <= |tape| && tape[start..end] == a + b
    ensures start + |a| <= end && tape[start..start + |a|] == a && tape[start + |a|..end] == b
  {
    assert |a + b| == end - start;
    assert tape[start..end][..|a|] == tape[start..start + |a|] && tape[start..end][|a|..] == tape[start + |a|..end];
    assert (a + b)[..|a|] == a && (a + b)[|a|..] == b;
  }

  lemma {:induction false} FirstParts(ns: seq<Node>, depth: nat)
    requires ns != [] && Paired(ns) && forall i :: 0 <= i < |ns| ==> ns[i].entry.kind.Gap? || ShapedNode(ns[i], false)
    ensures var k := Taken(ns);
            && k <= |ns| && Flat(ns, depth) == Flat(ns[..k], depth) + Flat(ns[k..], depth)
            && !ns[k - 1].entry.kind.DataLen?
            && Size(ns[..k]) == (if ns[0].entry.kind.DataLen? then 2 else Head(ns[0], depth).Span()) > 0
  {
    var k := Taken(ns);
    assert ns == ns[..k] + ns[k..];
    FlatAppend(ns[..k], ns[k..], depth);
    assert ns[0].entry.kind.Gap? || ShapedNode(ns[0], false);
    if ns[0].entry.kind.DataLen? {
      assert ns[1].entry.kind.Data? && ShapedNode(ns[1], false);
      assert ns[..2] == [ns[0]] + [ns[1]];
      SizeAppend([ns[0]], [ns[1]]);
      FlatOne(ns[0], depth);
      FlatOne(ns[1], depth);
    } else {
      assert ns[..1] == [ns[0]];
      FlatOne(ns[0], depth);
    }
  }

  /** The runs of entries that move as one. */
  method Children(tape: seq<Entry>, start: nat, end: nat, ghost ns: seq<Node>, ghost depth: nat)
    returns (spots: seq<(nat, nat)>)
    requires Laid(tape, start, end, ns, depth)
    ensures Spots(tape, spots, Pieces(ns), depth)
    ensures forall k :: 0 <= k < |spots| ==> start <= spots[k].0 && spots[k].0 + spots[k].1 <= end
  {
    hide Laid, SpotHolds, Head;
    LaidWithin(tape, start, end, ns, depth);
    spots := [];
    var i := start;
    ghost var rest, found: seq<Piece> := ns, [];
    assert [] + Pieces(ns) == Pieces(ns);
    while i < end
      invariant start <= i <= end <= |tape| && Laid(tape, i, end, rest, depth)
      invariant Pieces(ns) == found + Pieces(rest) && Spots(tape, spots, found, depth)
      invariant forall k :: 0 <= k < |spots| ==> start <= spots[k].0 && spots[k].0 + spots[k].1 <= end
      decreases end - i
    {
      LaidNext(tape, i, end, rest, depth);
      HeadKind(rest[0], depth);
      ghost var k := Taken(rest);
      ghost var p := rest[..k];
      PiecesStep(rest);
      var e := tape[i];
      if e.kind.Gap? {
        i := i + e.Span();
      } else {
        var len := if e.kind.DataLen? then 2 else e.Span();
        spots := spots + [(i, len)];
        assert found + ([p] + Pieces(rest[k..])) == found + [p] + Pieces(rest[k..]);
        found := found + [p];
        i := i + len;
      }
      rest := rest[k..];
    }
    LaidOver(tape, i, rest, depth);
    assert found + [] == found;
  }

  lemma {:induction false} LaidWithin(tape: seq<Entry>, start: nat, end: nat, ns: seq<Node>, depth: nat)
    requires Laid(tape, start, end, ns, depth)
    ensures start <= end <= |tape|
  {
  }

  lemma {:induction false} LaidOver(tape: seq<Entry>, i: nat, ns: seq<Node>, depth: nat)
    requires Laid(tape, i, i, ns, depth)
    ensures ns == [] && Pieces(ns) == []
  {
    assert |Flat(ns, depth)| == 0;
  }

  lemma {:induction false} PiecesStep(ns: seq<Node>)
    requires ns != []
    ensures var k := Taken(ns);
            k <= |ns| && Pieces(ns) == (if ns[0].entry.kind.Gap? then [] else [ns[..k]]) + Pieces(ns[k..])
  {
  }

  /** A group, with each of its instances in the group's own order. */
  method ReorderGroup(tape: seq<Entry>, at: nat, len: nat, r: Rules, w: Where, ghost n: Node, ghost depth: nat)
    returns (out: seq<Entry>)
    requires at + len <= |tape| && tape[at..at + len] == FlatNode(n, depth) && n.entry.kind.Group? && ShapedNode(n, false)
    ensures out == FlatNode(NormalNode(r, w, n), depth)
    decreases len, 0
  {
    hide Normal, Flat, NormalInstances;
    GroupStarts(tape, at, len, n, depth);
    var g := GroupAt(r, w, tape[at].tag);
    var members := OrderOf(r, g);
    out := [tape[at]];
    var q := at + 1;
    ghost var rest, all := n.kids, NormalInstances(r, g, n.kids);
    while q < at + len
      invariant at < q <= at + len && tape[q..at + len] == Flat(rest, depth + 1) && Shaped(rest, true)
      invariant out + Flat(NormalInstances(r, g, rest), depth + 1) == [tape[at]] + Flat(all, depth + 1)
      decreases at + len - q
    {
      InstanceStarts(tape, q, at + len, rest, depth + 1);
      var instance := tape[q];
      ghost var kids := rest[0].kids;
      var part := Reorder(tape, q + 1, q + instance.Span(), r, Inside(g), members, kids, depth + 1);
      InstanceDone(r, g, rest, depth + 1, instance, part, out);
      out := out + [instance] + part;
      q := q + instance.Span();
      rest := rest[1..];
    }
    NoInstances(tape, q, rest, depth + 1, r, g);
    assert out + [] == out;
    GroupDone(r, w, n, depth, tape[at]);
  }

  lemma {:induction false} GroupStarts(tape: seq<Entry>, at: nat, len: nat, n: Node, depth: nat)
    requires at + len <= |tape| && tape[at..at + len] == FlatNode(n, depth) && n.entry.kind.Group? && ShapedNode(n, false)
    ensures len > 0 && tape[at] == Head(n, depth) && tape[at].tag == n.entry.tag
    ensures tape[at + 1..at + len] == Flat(n.kids, depth + 1) && Shaped(n.kids, true)
  {
    assert |FlatNode(n, depth)| == len && tape[at..at + len][0] == tape[at];
    assert tape[at + 1..at + len] == tape[at..at + len][1..];
  }

  lemma {:induction false} InstanceStarts(tape: seq<Entry>, q: nat, end: nat, ns: seq<Node>, depth: nat)
    requires q < end <= |tape| && tape[q..end] == Flat(ns, depth) && Shaped(ns, true)
    ensures ns != [] && tape[q] == Head(ns[0], depth) && Shaped(ns[1..], true)
    ensures var span := tape[q].Span();
            && q + span <= end && tape[q + span..end] == Flat(ns[1..], depth)
            && Laid(tape, q + 1, q + span, ns[0].kids, depth)
  {
    assert |Flat(ns, depth)| == end - q;
    ShapedAt(ns, true, 0);
    assert tape[q..end][0] == tape[q];
    var a, b := FlatNode(ns[0], depth), Flat(ns[1..], depth);
    SliceParts(tape, q, end, a, b);
    assert tape[q + 1..q + |a|] == tape[q..q + |a|][1..];
    assert a[1..] == Flat(ns[0].kids, depth);
    assert forall i :: 0 <= i < |ns[1..]| ==> ns[1..][i] == ns[i + 1];
  }

  lemma {:induction false} InstanceDone(r: Rules, g: Option<nat>, ns: seq<Node>, depth: nat, instance: Entry,
                                        part: seq<Entry>, out: seq<Entry>)
    requires Shaped(ns, true) && ns != [] && instance == Head(ns[0], depth)
    requires part == Flat(Normal(r, Inside(g), OrderOf(r, g), ns[0].kids), depth)
    ensures out + [instance] + part + Flat(NormalInstances(r, g, ns[1..]), depth) == out + Flat(NormalInstances(r, g, ns), depth)
  {
    hide Normal;
    ShapedAt(ns, true, 0);
    NormalSize(r, Inside(g), OrderOf(r, g), ns[0].kids);
    var m := ns[0].(kids := Normal(r, Inside(g), OrderOf(r, g), ns[0].kids));
    var rest := NormalInstances(r, g, ns[1..]);
    assert Head(m, depth) == instance && FlatNode(m, depth) == [instance] + part;
    assert ([m] + rest)[1..] == rest && NormalInstances(r, g, ns) == [m] + rest;
    assert out + ([instance] + part + Flat(rest, depth)) == out + [instance] + part + Flat(rest, depth);
  }

  lemma {:induction false} NoInstances(tape: seq<Entry>, q: nat, ns: seq<Node>, depth: nat, r: Rules, g: Option<nat>)
    requires q <= |tape| && tape[q..q] == Flat(ns, depth)
    ensures Flat(NormalInstances(r, g, ns), depth) == []
  {
    assert |Flat(ns, depth)| == 0;
  }

  lemma {:induction false} GroupDone(r: Rules, w: Where, n: Node, depth: nat, e: Entry)
    requires n.entry.kind.Group? && ShapedNode(n, false) && e == Head(n, depth)
    ensures FlatNode(NormalNode(r, w, n), depth)
            == [e] + Flat(NormalInstances(r, GroupAt(r, w, n.entry.tag), n.kids), depth + 1)
  {
    hide NormalInstances, Flat;
    NodeKeepsSize(r, w, n);
  }

  /** One piece, copied or reordered within. */
  method ReorderPiece(tape: seq<Entry>, spot: (nat, nat), r: Rules, w: Where, ghost p: Piece, ghost depth: nat)
    returns (out: seq<Entry>)
    requires SpotHolds(tape, spot, p, depth) && IsPiece(p) && (|p| == 1 ==> ShapedNode(p[0], false))
    ensures out == Flat(NormalPiece(r, w, p), depth)
    decreases spot.1, 1
  {
    hide FlatNode, ShapedNode, NormalNode;
    PieceStarts(tape, spot, p, depth);
    if tape[spot.0].kind.Group? {
      out := ReorderGroup(tape, spot.0, spot.1, r, w, p[0], depth);
      FlatOne(NormalNode(r, w, p[0]), depth);
    } else {
      out := tape[spot.0..spot.0 + spot.1];
      PieceStays(r, w, p);
    }
  }

  lemma {:induction false} PieceStarts(tape: seq<Entry>, spot: (nat, nat), p: Piece, depth: nat)
    requires SpotHolds(tape, spot, p, depth) && IsPiece(p)
    ensures spot.1 > 0 && tape[spot.0].kind == p[0].entry.kind && tape[spot.0].tag == TagOf(p)
    ensures p[0].entry.kind.Group? ==> |p| == 1 && tape[spot.0..spot.0 + spot.1] == FlatNode(p[0], depth)
  {
    assert p[0] == p[..1][0] && |Flat(p, depth)| == spot.1;
    assert tape[spot.0..spot.0 + spot.1][0] == tape[spot.0] == Head(p[0], depth);
    if |p| == 1 {
      assert p == [p[0]];
      FlatOne(p[0], depth);
    }
  }

  lemma {:induction false} PieceStays(r: Rules, w: Where, p: Piece)
    requires IsPiece(p) && !p[0].entry.kind.Group?
    ensures NormalPiece(r, w, p) == p
  {
  }

  /** A block's pieces, sorted and copied. */
  method Reorder(tape: seq<Entry>, start: nat, end: nat, r: Rules, w: Where, order: Members, ghost ns: seq<Node>,
                 ghost depth: nat)
    returns (out: seq<Entry>)
    requires Laid(tape, start, end, ns, depth)
    ensures out == Flat(Normal(r, w, order, ns), depth)
    decreases end - start, 2
  {
    hide Laid, SpotHolds, Flat, Join, Pieces, NormalNodes, Sort, SortIndex, IsPiece, NormalPiece, ShapedNode;
    var spots := Children(tape, start, end, ns, depth);
    ghost var ps, qs := Pieces(ns), Pieces(NormalNodes(r, w, ns));
    LaidPieces(tape, start, end, ns, depth);
    NormalPieces(r, w, ns);
    var tags := TagsAt(tape, spots, ps, qs, depth);
    var idx := SortIndex(order, tags, |tags|);
    PickedSort(order, qs, |qs|);
    assert qs[..|qs|] == qs;
    out := [];
    NothingFlat(qs, depth);
    assert idx[..0] == [];
    for j := 0 to |idx|
      invariant out == Flat(Join(Picked(qs, idx[..j])), depth)
    {
      var k := idx[j];
      assert SpotHolds(tape, spots[k], ps[k], depth);
      var part := ReorderPiece(tape, spots[k], r, w, ps[k], depth);
      assert idx[..j + 1] == idx[..j] + [k];
      MoreFlat(qs, idx[..j], k, depth);
      out := out + part;
    }
    assert idx[..|idx|] == idx;
  }

  lemma {:induction false} PiecesShaped(ns: seq<Node>)
    requires forall i :: 0 <= i < |ns| ==> ns[i].entry.kind.Gap? || ShapedNode(ns[i], false)
    ensures forall k :: 0 <= k < |Pieces(ns)| && |Pieces(ns)[k]| == 1 ==> ShapedNode(Pieces(ns)[k][0], false)
    decreases |ns|
  {
    hide ShapedNode;
    if ns != [] {
      var k := Taken(ns);
      PiecesStep(ns);
      PiecesShaped(ns[k..]);
    }
  }

  lemma {:induction false} LaidPieces(tape: seq<Entry>, start: nat, end: nat, ns: seq<Node>, depth: nat)
    requires Laid(tape, start, end, ns, depth)
    ensures Paired(ns) && ArePieces(Pieces(ns))
    ensures forall k :: 0 <= k < |Pieces(ns)| && |Pieces(ns)[k]| == 1 ==> ShapedNode(Pieces(ns)[k][0], false)
  {
    hide Flat, Pieces, ShapedNode;
    PiecesAre(ns);
    PiecesShaped(ns);
  }

  /** The tags the pieces are sorted by. */
  method TagsAt(tape: seq<Entry>, spots: seq<(nat, nat)>, ghost ps: seq<Piece>, ghost qs: seq<Piece>, ghost depth: nat)
    returns (tags: seq<nat>)
    requires Spots(tape, spots, ps, depth) && ArePieces(ps)
    requires |qs| == |ps| && forall k :: 0 <= k < |ps| ==> TagOf(qs[k]) == TagOf(ps[k])
    ensures tags == TagsOf(qs)
  {
    hide SpotHolds, IsPiece, TagOf;
    tags := [];
    for k := 0 to |spots|
      invariant |tags| == k && forall i :: 0 <= i < k ==> tags[i] == TagOf(qs[i])
    {
      assert SpotHolds(tape, spots[k], ps[k], depth);
      PieceStarts(tape, spots[k], ps[k], depth);
      SpotWithin(tape, spots[k], ps[k], depth);
      tags := tags + [tape[spots[k].0].tag];
    }
  }

  lemma {:induction false} SpotWithin(tape: seq<Entry>, spot: (nat, nat), p: Piece, depth: nat)
    requires SpotHolds(tape, spot, p, depth)
    ensures spot.0 + spot.1 <= |tape|
  {
  }

  lemma {:induction false} NothingFlat(qs: seq<Piece>, depth: nat)
    ensures Flat(Join(Picked(qs, [])), depth) == []
  {
  }

  lemma {:induction false} MoreFlat(qs: seq<Piece>, idx: seq<nat>, k: nat, depth: nat)
    requires Below(idx, |qs|) && k < |qs|
    ensures Flat(Join(Picked(qs, idx + [k])), depth) == Flat(Join(Picked(qs, idx)), depth) + Flat(qs[k], depth)
  {
    hide Flat, Join;
    assert Picked(qs, idx + [k]) == Picked(qs, idx) + [qs[k]];
    JoinAppend(Picked(qs, idx), [qs[k]]);
    JoinOne(qs[k]);
    FlatAppend(Join(Picked(qs, idx)), qs[k], depth);
  }

  // ---------------------------------------------------------------------
  // Messages
  // ---------------------------------------------------------------------

  lemma {:induction false} PairedJoin(p: Piece, rest: seq<Node>)
    requires IsPiece(p) && Paired(rest)
    ensures Paired(p + rest)
  {
    var all := p + rest;
    assert forall i :: 0 <= i < |rest| ==> all[|p| + i] == rest[i];
  }

  predicate PieceShaped(p: Piece) {
    IsPiece(p) && forall i :: 0 <= i < |p| ==> ShapedNode(p[i], false)
  }

  lemma {:induction false} JoinShaped(ps: seq<Piece>)
    requires forall k :: 0 <= k < |ps| ==> PieceShaped(ps[k])
    ensures Shaped(Join(ps), false)
    decreases |ps|
  {
    hide ShapedNode;
    if ps != [] {
      assert PieceShaped(ps[0]);
      JoinShaped(ps[1..]);
      PairedJoin(ps[0], Join(ps[1..]));
    }
  }

  lemma {:induction false} PiecesAllShaped(ns: seq<Node>)
    requires Paired(ns) && forall i :: 0 <= i < |ns| ==> ns[i].entry.kind.Gap? || ShapedNode(ns[i], false)
    ensures forall k :: 0 <= k < |Pieces(ns)| ==> PieceShaped(Pieces(ns)[k])
    decreases |ns|
  {
    hide ShapedNode;
    if ns != [] {
      var k := Taken(ns);
      PiecesAre(ns);
      PiecesStep(ns);
      PairedRest(ns, k);
      PiecesAllShaped(ns[k..]);
      if !ns[0].entry.kind.Gap? {
        assert Pieces(ns)[0] == ns[..k] && IsPiece(ns[..k]);
      }
    }
  }

  /** A normalised block is shaped like the one it came from. */
  lemma {:induction false} NormalShaped(r: Rules, w: Where, order: Members, ns: seq<Node>)
    requires Paired(ns) && forall i :: 0 <= i < |ns| ==> ns[i].entry.kind.Gap? || ShapedNode(ns[i], false)
    ensures Shaped(Normal(r, w, order, ns), false)
    decreases ns, 2
  {
    hide ShapedNode, Paired, Pieces, Sort, NormalNode, IsPiece;
    var kids := NormalNodes(r, w, ns);
    NodesShaped(r, w, ns);
    NormalPaired(r, w, ns);
    PiecesAllShaped(kids);
    var ps := Pieces(kids);
    var s := Sort(order, ps);
    SortSorts(order, ps);
    forall k | 0 <= k < |s|
      ensures PieceShaped(s[k])
    {
      assert s[k] in multiset(s);
      assert s[k] in ps;
    }
    JoinShaped(s);
  }

  lemma {:induction false} NodesShaped(r: Rules, w: Where, ns: seq<Node>)
    requires forall i :: 0 <= i < |ns| ==> ns[i].entry.kind.Gap? || ShapedNode(ns[i], false)
    ensures forall i :: 0 <= i < |ns| ==> ns[i].entry.kind.Gap? || ShapedNode(NormalNodes(r, w, ns)[i], false)
    decreases ns, 1
  {
    hide ShapedNode, NormalNode;
    if ns != [] {
      if !ns[0].entry.kind.Gap? {
        NodeShaped(r, w, ns[0]);
      }
      NodesShaped(r, w, ns[1..]);
      assert forall i :: 1 <= i < |ns| ==> NormalNodes(r, w, ns)[i] == NormalNodes(r, w, ns[1..])[i - 1];
    }
  }

  lemma {:induction false} NodeShaped(r: Rules, w: Where, n: Node)
    requires ShapedNode(n, false)
    ensures ShapedNode(NormalNode(r, w, n), false)
    decreases n, 0
  {
    if n.entry.kind.Group? {
      InstancesShaped(r, GroupAt(r, w, n.entry.tag), n.kids);
    }
  }

  lemma {:induction false} InstancesShaped(r: Rules, g: Option<nat>, ns: seq<Node>)
    requires Shaped(ns, true)
    ensures Shaped(NormalInstances(r, g, ns), true)
    decreases ns, 3
  {
    if ns != [] {
      hide Normal;
      ShapedAt(ns, true, 0);
      NormalShaped(r, Inside(g), OrderOf(r, g), ns[0].kids);
      InstancesShaped(r, g, ns[1..]);
    }
  }

  /** The order of each region's fields. */
  datatype Orders = Orders(header: Members, body: Members, trailer: Members)

  /** A message in its canonical order, with its header's gap as it was to begin with. */
  function NormalDoc(r: Rules, o: Orders, doc: Doc): Doc {
    Doc(Normal(r, Outside(true), o.header, doc.header) + [GapNode(HEADER_GAP)], Normal(r, Outside(false), o.body, doc.body),
        Normal(r, Outside(false), o.trailer, doc.trailer))
  }

  /** A region of a well-formed message. */
  lemma {:induction false} RegionShaped(doc: Doc)
    requires WellFormed(doc)
    ensures Paired(doc.header) && forall i :: 0 <= i < |doc.header| ==> doc.header[i].entry.kind.Gap? || ShapedNode(doc.header[i], false)
    ensures Paired(doc.body) && forall i :: 0 <= i < |doc.body| ==> ShapedNode(doc.body[i], false)
    ensures Paired(doc.trailer) && forall i :: 0 <= i < |doc.trailer| ==> ShapedNode(doc.trailer[i], false)
  {
    hide ShapedNode, NodeSize;
    var h, f := doc.header, Fields(doc.header);
    assert forall i :: 0 <= i < |f| ==> f[i] == h[i];
    forall i | 0 <= i < |h|
      ensures h[i].entry.kind.Gap? || ShapedNode(h[i], false)
    {
      if i < |f| {
        assert ShapedNode(f[i], false);
      }
    }
  }

  lemma {:induction false} NormalWellFormed(r: Rules, o: Orders, doc: Doc)
    requires WellFormed(doc)
    ensures WellFormed(NormalDoc(r, o, doc))
  {
    hide ShapedNode, Normal, Paired, Shaped;
    RegionShaped(doc);
    NormalShaped(r, Outside(true), o.header, doc.header);
    NormalShaped(r, Outside(false), o.body, doc.body);
    NormalShaped(r, Outside(false), o.trailer, doc.trailer);
    var h := Normal(r, Outside(true), o.header, doc.header);
    assert Fields(h + [GapNode(HEADER_GAP)]) == h;
    assert NodeSize(GapNode(HEADER_GAP)) == HEADER_GAP;
  }

  /** Put every block in its canonical order. Only entries move: no bytes are touched. */
  method Normalize(msg: Message, r: Rules, o: Orders)
    requires msg.Valid() && WellFormed(msg.doc)
    modifies msg`tape, msg`bodyStart, msg`trailerStart, msg`clean, msg`doc
    ensures msg.Valid() && msg.doc == NormalDoc(r, o, old(msg.doc)) && WellFormed(msg.doc)
    ensures !msg.clean
  {
    hide Flat, Normal, WellFormed, Laid, Tidy;
    ghost var doc := msg.doc;
    RegionsLaid(doc);
    var h := Reorder(msg.tape, 0, msg.bodyStart, r, Outside(true), o.header, doc.header, 0);
    var b := Reorder(msg.tape, msg.bodyStart, msg.trailerStart, r, Outside(false), o.body, doc.body, 0);
    var t := Reorder(msg.tape, msg.trailerStart, |msg.tape|, r, Outside(false), o.trailer, doc.trailer, 0);
    var front := h + GapSlots();
    msg.tape := front + b + t;
    msg.bodyStart := |front|;
    msg.trailerStart := |front| + |b|;
    msg.clean := false;
    msg.doc := NormalDoc(r, o, doc);
    NormalImage(msg.doc.header, msg.doc.body, msg.doc.trailer, h, b, t);
    NormalWellFormed(r, o, doc);
    WellFormedTidy(msg.doc);
  }

  lemma {:induction false} RegionsLaid(doc: Doc)
    requires WellFormed(doc)
    ensures var im := ImageOf(doc);
            && Laid(im.tape, 0, im.bodyStart, doc.header, 0)
            && Laid(im.tape, im.bodyStart, im.trailerStart, doc.body, 0)
            && Laid(im.tape, im.trailerStart, |im.tape|, doc.trailer, 0)
  {
    hide Flat, ShapedNode, WellFormed, Paired;
    RegionShaped(doc);
    var a, b, c := Flat(doc.header, 0), Flat(doc.body, 0), Flat(doc.trailer, 0);
    assert (a + b + c)[0..|a|] == a && (a + b + c)[|a|..|a| + |b|] == b && (a + b + c)[|a| + |b|..] == c;
  }

  lemma {:induction false} NormalImage(header: seq<Node>, body: seq<Node>, trailer: seq<Node>, h: seq<Entry>,
                                       b: seq<Entry>, t: seq<Entry>)
    requires header != [] && header[|header| - 1] == GapNode(HEADER_GAP) && h == Flat(header[..|header| - 1], 0)
    requires b == Flat(body, 0) && t == Flat(trailer, 0)
    ensures var front := h + GapSlots();
            ImageOf(Doc(header, body, trailer)) == Image(front + b + t, |front|, |front| + |b|)
  {
    var k, gap := |header| - 1, GapNode(HEADER_GAP);
    assert header == header[..k] + [gap];
    FlatAppend(header[..k], [gap], 0);
    FlatOne(gap, 0);
    assert FlatNode(gap, 0) == GapSlots();
  }
}
