/**
 * Which messages have one normal form (message/normalize.rs): those that hold the same fields in each
 * block, tag by tag in the same order, wherever their bytes are and whatever the order of the tags.
 */
module NormalForms {
  import opened Tape
  import opened Document
  import opened Editing
  import opened Messages
  import opened Groups
  import opened Numerals
  import opened Storage
  import opened Shape
  import opened Parsing
  import opened RoundTrip
  import opened Encoding
  import opened Equality
  import opened Normalizing
  import opened Canonical

  // ---------------------------------------------------------------------
  // The same content
  // ---------------------------------------------------------------------

  /** What a field says. */
  function TextOf(segs: Segments, e: Entry): Option<seq<Byte>> {
    if Present(segs, e) then Some(Value(segs, e)) else None
  }

  /** What messages are compared by: not gaps, BodyLength, CheckSum or groups without instances. */
  predicate Counts(n: Node) {
    !n.entry.kind.Gap? && n.entry.tag != 9 && n.entry.tag != 10 && !(n.entry.kind.Group? && n.kids == [])
  }

  /** Where fields with a tag, Lengths with their data, and groups start in a block, from `i` on. */
  function Places(ns: seq<Node>, tag: nat, i: nat): (s: seq<nat>)
    ensures forall k :: 0 <= k < |s| ==> i <= s[k] < |ns| && Counts(ns[s[k]]) && ns[s[k]].entry.tag == tag
    decreases |ns| - i
  {
    if i >= |ns| then []
    else (if Counts(ns[i]) && ns[i].entry.tag == tag then [i] else []) + Places(ns, tag, i + Taken(ns[i..]))
  }

  /**
   * Two blocks hold the same: for each tag the same fields in the same order, and each group's
   * instances hold the same in turn. The order of different tags does not matter, nor where bytes are.
   */
  ghost predicate SameContent(segs: Segments, a: seq<Node>, segs': Segments, b: seq<Node>)
    decreases a, 2
  {
    forall tag :: SameUnder(segs, a, segs', b, tag)
  }

  ghost predicate SameUnder(segs: Segments, a: seq<Node>, segs': Segments, b: seq<Node>, tag: nat)
    decreases a, 1
  {
    var x, y := Places(a, tag, 0), Places(b, tag, 0);
    |x| == |y| && forall k :: 0 <= k < |x| ==> SameAt(segs, a, x[k], segs', b, y[k])
  }

  /** The same field, Length and data, or group. */
  ghost predicate SameAt(segs: Segments, a: seq<Node>, i: nat, segs': Segments, b: seq<Node>, j: nat)
    requires i < |a| && j < |b|
    decreases a, 0
  {
    && SameNode(segs, a[i], segs', b[j])
    && (a[i].entry.kind.DataLen? && i + 1 < |a| && j + 1 < |b| ==> SameNode(segs, a[i + 1], segs', b[j + 1]))
  }

  ghost predicate SameNode(segs: Segments, n: Node, segs': Segments, m: Node)
    decreases n, 3
  {
    && n.entry.kind == m.entry.kind && n.entry.tag == m.entry.tag
    && if n.entry.kind.Group? then
         && |n.kids| == |m.kids|
         && forall k :: 0 <= k < |n.kids| ==> SameContent(segs, n.kids[k].kids, segs', m.kids[k].kids)
       else TextOf(segs, n.entry) == TextOf(segs', m.entry)
  }

  // ---------------------------------------------------------------------
  // What is seen of pieces
  // ---------------------------------------------------------------------

  /** What is seen of a piece, and the tag it is sorted by. */
  datatype Item = Item(tag: nat, face: seq<Sight>)

  /** The pieces of which anything is seen. */
  function Items(segs: Segments, depth: nat, ps: seq<Piece>): seq<Item> {
    if ps == [] then []
    else
      var face := Sights(segs, ps[0], depth);
      (if face == [] then [] else [Item(TagOf(ps[0]), face)]) + Items(segs, depth, ps[1..])
  }

  function Faces(xs: seq<Item>): seq<Sight> {
    if xs == [] then [] else xs[0].face + Faces(xs[1..])
  }

  function OnlyItems(xs: seq<Item>, tag: nat): seq<Item> {
    if xs == [] then [] else (if xs[0].tag == tag then [xs[0]] else []) + OnlyItems(xs[1..], tag)
  }

  predicate SortedItems(order: Members, xs: seq<Item>) {
    forall i, j :: 0 <= i < j < |xs| ==> !Less(order, xs[j].tag, xs[i].tag)
  }

  lemma {:induction false} JoinSights(segs: Segments, depth: nat, ps: seq<Piece>)
    ensures Sights(segs, Join(ps), depth) == Faces(Items(segs, depth, ps))
    decreases |ps|
  {
    if ps != [] {
      hide Sights;
      JoinSights(segs, depth, ps[1..]);
      SightsAppend(segs, ps[0], Join(ps[1..]), depth);
      var face, rest := Sights(segs, ps[0], depth), Items(segs, depth, ps[1..]);
      if face == [] {
        assert [] + rest == rest && [] + Faces(rest) == Faces(rest);
      } else {
        assert ([Item(TagOf(ps[0]), face)] + rest)[1..] == rest;
      }
    } else {
      NothingSeen(segs, depth);
    }
  }

  lemma {:induction false} ItemsOnly(segs: Segments, depth: nat, ps: seq<Piece>, tag: nat)
    ensures OnlyItems(Items(segs, depth, ps), tag) == Items(segs, depth, Only(ps, tag))
    decreases |ps|
  {
    hide Sights, TagOf;
    if ps != [] {
      ItemsOnly(segs, depth, ps[1..], tag);
      var face, rest := Sights(segs, ps[0], depth), Items(segs, depth, ps[1..]);
      var x := Item(TagOf(ps[0]), face);
      assert ([x] + rest)[1..] == rest && [] + rest == rest;
      var only := Only(ps[1..], tag);
      assert ([ps[0]] + only)[1..] == only && [] + only == only;
    }
  }

  lemma {:induction false} ItemsSorted(segs: Segments, depth: nat, order: Members, ps: seq<Piece>)
    requires Sorted(order, ps)
    ensures SortedItems(order, Items(segs, depth, ps))
    ensures forall i :: 0 <= i < |Items(segs, depth, ps)| ==>
              exists k :: 0 <= k < |ps| && TagOf(ps[k]) == Items(segs, depth, ps)[i].tag
    decreases |ps|
  {
    hide Sights, TagOf, Less;
    if ps != [] {
      var rest, xs := Items(segs, depth, ps[1..]), Items(segs, depth, ps);
      ItemsSorted(segs, depth, order, ps[1..]);
      assert forall k :: 0 <= k < |ps[1..]| ==> ps[1..][k] == ps[k + 1];
      forall i | 0 <= i < |xs|
        ensures exists k :: 0 <= k < |ps| && TagOf(ps[k]) == xs[i].tag
      {
        if |xs| > |rest| && i == 0 {
          assert TagOf(ps[0]) == xs[0].tag;
        } else {
          var k :| 0 <= k < |ps[1..]| && TagOf(ps[1..][k]) == rest[i - (|xs| - |rest|)].tag;
          assert TagOf(ps[k + 1]) == xs[i].tag;
        }
      }
      forall i, j | 0 <= i < j < |xs|
        ensures !Less(order, xs[j].tag, xs[i].tag)
      {
        if |xs| > |rest| && i == 0 {
          var k :| 0 <= k < |ps[1..]| && TagOf(ps[1..][k]) == rest[j - 1].tag;
          assert !Less(order, TagOf(ps[k + 1]), TagOf(ps[0]));
        }
      }
    }
  }

  // ---------------------------------------------------------------------
  // Lists in order
  // ---------------------------------------------------------------------

  /** The same items, tag by tag. */
  ghost predicate SameByTag(x: seq<Item>, y: seq<Item>) {
    forall tag :: OnlyItems(x, tag) == OnlyItems(y, tag)
  }

  /** Two lists in order that agree on every tag are the same list. */
  lemma {:induction false} SortedUnique(order: Members, a: seq<Item>, b: seq<Item>)
    requires SortedItems(order, a) && SortedItems(order, b) && SameByTag(a, b)
    ensures a == b
    decreases |a|
  {
    if a == [] || b == [] {
      BothEmpty(a, b);
    } else {
      SameHead(order, a, b);
      forall tag
        ensures OnlyItems(a[1..], tag) == OnlyItems(b[1..], tag)
      {
        assert OnlyItems(a, tag) == OnlyItems(b, tag);
        TailOnly(a, tag);
        TailOnly(b, tag);
      }
      SortedUnique(order, a[1..], b[1..]);
      assert a == [a[0]] + a[1..] && b == [b[0]] + b[1..];
    }
  }

  lemma {:induction false} BothEmpty(a: seq<Item>, b: seq<Item>)
    requires (a == [] || b == []) && SameByTag(a, b)
    ensures a == b
  {
    if a != [] {
      HeadOnly(a);
    }
    if b != [] {
      HeadOnly(b);
    }
  }

  lemma {:induction false} HeadOnly(xs: seq<Item>)
    requires xs != []
    ensures OnlyItems(xs, xs[0].tag) != [] && OnlyItems(xs, xs[0].tag)[0] == xs[0]
  {
  }

  lemma {:induction false} TailOnly(xs: seq<Item>, tag: nat)
    requires xs != []
    ensures OnlyItems(xs[1..], tag) == if xs[0].tag == tag then OnlyItems(xs, tag)[1..] else OnlyItems(xs, tag)
  {
  }

  lemma {:induction false} OnlyFound(xs: seq<Item>, tag: nat) returns (k: nat)
    requires OnlyItems(xs, tag) != []
    ensures k < |xs| && xs[k].tag == tag
    decreases |xs|
  {
    if xs[0].tag == tag {
      k := 0;
    } else {
      var j := OnlyFound(xs[1..], tag);
      k := j + 1;
    }
  }

  lemma {:induction false} NeitherLess(order: Members, s: nat, t: nat)
    ensures s == t || Less(order, s, t) || Less(order, t, s)
  {
  }

  lemma {:induction false} SameHead(order: Members, a: seq<Item>, b: seq<Item>)
    requires a != [] && b != [] && SortedItems(order, a) && SortedItems(order, b) && SameByTag(a, b)
    ensures a[0] == b[0]
  {
    hide OnlyItems, Less;
    var s, t := a[0].tag, b[0].tag;
    HeadOnly(a);
    HeadOnly(b);
    assert OnlyItems(a, s) == OnlyItems(b, s) && OnlyItems(a, t) == OnlyItems(b, t);
    var j := OnlyFound(b, s);
    var i := OnlyFound(a, t);
    assert !Less(order, s, t) || j == 0;
    assert !Less(order, t, s) || i == 0;
    NeitherLess(order, s, t);
  }

  // ---------------------------------------------------------------------
  // Faces can be told apart
  // ---------------------------------------------------------------------

  /** What is seen of one piece of a block: itself, at the block's depth, and what is deeper. */
  predicate IsFace(x: Item, depth: nat) {
    && x.face != [] && x.face[0].depth == depth && x.face[0].tag == x.tag
    && if x.face[0].kind.DataLen? then |x.face| == 2
       else forall i :: 1 <= i < |x.face| ==> x.face[i].depth > depth
  }

  predicate AreFaces(xs: seq<Item>, depth: nat) {
    forall i :: 0 <= i < |xs| ==> IsFace(xs[i], depth)
  }

  /** What is seen of a block tells what is seen of each piece. */
  lemma {:induction false} FacesApart(x: seq<Item>, y: seq<Item>, depth: nat)
    requires AreFaces(x, depth) && AreFaces(y, depth) && Faces(x) == Faces(y)
    ensures x == y
    decreases |x|
  {
    if x == [] || y == [] {
      NoFaces(x, y, depth);
    } else {
      hide Faces, IsFace;
      FacesStart(x, depth);
      FacesStart(y, depth);
      var f, g, s, t := x[0].face, y[0].face, Faces(x[1..]), Faces(y[1..]);
      FirstFace(x[0], s, y[0], t, depth);
      assert (f + s)[|f|..] == s && (g + t)[|g|..] == t;
      FacesApart(x[1..], y[1..], depth);
      assert x == [x[0]] + x[1..] && y == [y[0]] + y[1..];
    }
  }

  lemma {:induction false} NoFaces(x: seq<Item>, y: seq<Item>, depth: nat)
    requires AreFaces(x, depth) && AreFaces(y, depth) && Faces(x) == Faces(y) && (x == [] || y == [])
    ensures x == y
  {
    assert x != [] ==> IsFace(x[0], depth);
    assert y != [] ==> IsFace(y[0], depth);
  }

  lemma {:induction false} FacesStart(xs: seq<Item>, depth: nat)
    requires AreFaces(xs, depth) && xs != []
    ensures Faces(xs) == xs[0].face + Faces(xs[1..]) && IsFace(xs[0], depth) && AreFaces(xs[1..], depth)
    ensures Faces(xs[1..]) != [] ==> Faces(xs[1..])[0].depth == depth
  {
    if |xs| > 1 {
      assert IsFace(xs[1], depth) && xs[1..][0] == xs[1];
    }
  }

  lemma {:induction false} FirstFace(x: Item, s: seq<Sight>, y: Item, t: seq<Sight>, depth: nat)
    requires IsFace(x, depth) && IsFace(y, depth) && x.face + s == y.face + t
    requires (s != [] ==> s[0].depth == depth) && (t != [] ==> t[0].depth == depth)
    ensures x == y
  {
    var f, g := x.face, y.face;
    TwoParts(f, s);
    TwoParts(g, t);
    assert f == (f + s)[..|f|] && g == (g + t)[..|g|];
  }

  lemma {:induction false} TwoParts(a: seq<Sight>, b: seq<Sight>)
    ensures forall k :: 0 <= k < |a| ==> (a + b)[k] == a[k]
    ensures b != [] ==> (a + b)[|a|] == b[0]
  {
  }

  // ---------------------------------------------------------------------
  // How deep what is seen is
  // ---------------------------------------------------------------------

  predicate AllFromDepth(ss: seq<Sight>, depth: nat) {
    forall i :: 0 <= i < |ss| ==> ss[i].depth >= depth
  }

  lemma {:induction false} SightsDeep(segs: Segments, ns: seq<Node>, depth: nat)
    ensures AllFromDepth(Sights(segs, ns, depth), depth)
    decreases ns, 1
  {
    if ns != [] {
      hide NodeSights;
      NodeDeep(segs, ns[0], depth);
      SightsDeep(segs, ns[1..], depth);
    }
  }

  lemma {:induction false} NodeDeep(segs: Segments, n: Node, depth: nat)
    ensures AllFromDepth(NodeSights(segs, n, depth), depth)
    decreases n, 0
  {
    if !n.entry.kind.Gap? {
      SightsDeep(segs, n.kids, KidDepth(n, depth));
    }
  }

  /** What is seen of a block has no instance of the group the block is in. */
  predicate Inner(ss: seq<Sight>, depth: nat) {
    forall i :: 0 <= i < |ss| ==> !(ss[i].kind.Instance? && ss[i].depth == depth)
  }

  lemma {:induction false} SightsInner(segs: Segments, ns: seq<Node>, depth: nat)
    requires forall i :: 0 <= i < |ns| ==> ShapedNode(ns[i], false)
    ensures Inner(Sights(segs, ns, depth), depth)
    decreases |ns|
  {
    if ns != [] {
      hide NodeSights, ShapedNode;
      NodeInner(segs, ns[0], depth);
      SightsInner(segs, ns[1..], depth);
    }
  }

  lemma {:induction false} NodeInner(segs: Segments, n: Node, depth: nat)
    requires ShapedNode(n, false)
    ensures Inner(NodeSights(segs, n, depth), depth)
  {
    if n.entry.kind.Group? {
      SightsDeep(segs, n.kids, depth + 1);
    }
  }

  // ---------------------------------------------------------------------
  // One node
  // ---------------------------------------------------------------------

  /** A block that can be normalised and compared. */
  predicate Good(ns: seq<Node>) {
    && Paired(ns) && PlainFraming(ns)
    && forall i :: 0 <= i < |ns| ==> ns[i].entry.kind.Gap? || ShapedNode(ns[i], false)
  }

  lemma {:induction false} SightIs(segs: Segments, n: Node, depth: nat)
    requires !n.entry.kind.Gap?
    ensures var x := SightOf(segs, Head(n, depth));
            && x.kind == n.entry.kind && x.tag == n.entry.tag && x.depth == depth
            && (n.entry.IsField() ==> x.value == TextOf(segs, n.entry))
            && (!n.entry.IsField() ==> x.value == None)
            && x.count == if n.entry.kind.Group? then Some(|n.kids|) else None
  {
  }

  /** Two nodes are the same if and only if what is seen of them, normalised, is. */
  lemma {:induction false} NodeAlike(segs: Segments, n: Node, segs': Segments, m: Node, r: Rules, w: Where, depth: nat)
    requires ShapedNode(n, false) && ShapedNode(m, false) && PlainFramingIn(n) && PlainFramingIn(m) && Counts(n) && Counts(m)
    ensures SameNode(segs, n, segs', m)
            <==> NodeSights(segs, NormalNode(r, w, n), depth) == NodeSights(segs', NormalNode(r, w, m), depth)
    decreases n, 1
  {
    hide SightOf, Normal, SameContent, Sights;
    FaceOf(segs, n, r, w, depth);
    FaceOf(segs', m, r, w, depth);
    SightIs(segs, NormalNode(r, w, n), depth);
    SightIs(segs', NormalNode(r, w, m), depth);
    var s, t := NodeSights(segs, NormalNode(r, w, n), depth), NodeSights(segs', NormalNode(r, w, m), depth);
    assert s[0] == SightOf(segs, Head(NormalNode(r, w, n), depth)) && t[0] == SightOf(segs', Head(NormalNode(r, w, m), depth));
    if n.entry.kind == m.entry.kind && n.entry.tag == m.entry.tag {
      if !n.entry.kind.Group? {
        assert n.entry.IsField() && s == [s[0]] && t == [t[0]];
      } else {
        if |n.kids| == |m.kids| {
          InstancesAlike(segs, n.kids, segs', m.kids, r, GroupAt(r, w, n.entry.tag), depth + 1);
          assert s[1..] == Sights(segs, NormalNode(r, w, n).kids, depth + 1);
          assert t[1..] == Sights(segs', NormalNode(r, w, m).kids, depth + 1);
          assert s == [s[0]] + s[1..] && t == [t[0]] + t[1..];
        }
      }
    }
  }

  lemma {:induction false} FaceOf(segs: Segments, n: Node, r: Rules, w: Where, depth: nat)
    requires ShapedNode(n, false) && PlainFramingIn(n) && Counts(n)
    ensures var x := NormalNode(r, w, n);
            && NodeSights(segs, x, depth) == [SightOf(segs, Head(x, depth))] + Sights(segs, x.kids, KidDepth(x, depth))
            && (!n.entry.kind.Group? ==> x == n && Sights(segs, x.kids, KidDepth(x, depth)) == [])
            && (n.entry.kind.Group? ==> x.kids == NormalInstances(r, GroupAt(r, w, n.entry.tag), n.kids) && |x.kids| == |n.kids|)
  {
    hide SightOf, Normal, NormalInstances;
  }

  /** Instances are the same one by one if and only if what is seen of them, normalised, is. */
  lemma {:induction false} InstancesAlike(segs: Segments, a: seq<Node>, segs': Segments, b: seq<Node>, r: Rules,
                                          g: Option<nat>, depth: nat)
    requires Shaped(a, true) && Shaped(b, true) && PlainFraming(a) && PlainFraming(b) && |a| == |b|
    ensures (forall k :: 0 <= k < |a| ==> SameContent(segs, a[k].kids, segs', b[k].kids))
            <==> Sights(segs, NormalInstances(r, g, a), depth) == Sights(segs', NormalInstances(r, g, b), depth)
    decreases a, 0
  {
    if a != [] {
      hide Normal, SameContent, NodeSights, Sights;
      var w, order := Inside(g), OrderOf(r, g);
      var x, y := Normal(r, w, order, a[0].kids), Normal(r, w, order, b[0].kids);
      InstanceGood(a);
      InstanceGood(b);
      BlockAlike(segs, a[0].kids, segs', b[0].kids, r, w, order, depth);
      InstancesAlike(segs, a[1..], segs', b[1..], r, g, depth);
      FirstInstanceSights(segs, a, r, g, depth);
      FirstInstanceSights(segs', b, r, g, depth);
      InstancesStart(segs, a[1..], r, g, depth);
      InstancesStart(segs', b[1..], r, g, depth);
      var i := Sight(Instance, 0, depth, None, None);
      CutInstance(i, Sights(segs, x, depth), Sights(segs, NormalInstances(r, g, a[1..]), depth),
                  Sights(segs', y, depth), Sights(segs', NormalInstances(r, g, b[1..]), depth), depth);
      AllSplit(segs, a, segs', b);
    } else {
      NothingSeen(segs, depth);
      NothingSeen(segs', depth);
    }
  }

  lemma {:induction false} AllSplit(segs: Segments, a: seq<Node>, segs': Segments, b: seq<Node>)
    requires a != [] && |a| == |b|
    ensures (forall k :: 0 <= k < |a| ==> SameContent(segs, a[k].kids, segs', b[k].kids))
            <==> SameContent(segs, a[0].kids, segs', b[0].kids)
                 && forall k :: 0 <= k < |a[1..]| ==> SameContent(segs, a[1..][k].kids, segs', b[1..][k].kids)
  {
    hide SameContent;
    assert forall k :: 1 <= k < |a| ==> a[k] == a[1..][k - 1] && b[k] == b[1..][k - 1];
  }

  lemma {:induction false} InstanceGood(ns: seq<Node>)
    requires Shaped(ns, true) && PlainFraming(ns) && ns != []
    ensures Good(ns[0].kids) && ns[0].entry.kind.Instance? && ns[0].entry.tag == 0
    ensures Shaped(ns[1..], true) && PlainFraming(ns[1..])
  {
    assert PlainFramingIn(ns[0]);
    ShapedAt(ns, true, 0);
  }

  lemma {:induction false} FirstInstanceSights(segs: Segments, ns: seq<Node>, r: Rules, g: Option<nat>, depth: nat)
    requires Shaped(ns, true) && PlainFraming(ns) && ns != []
    ensures var kids := Normal(r, Inside(g), OrderOf(r, g), ns[0].kids);
            && Sights(segs, NormalInstances(r, g, ns), depth)
               == [Sight(Instance, 0, depth, None, None)] + Sights(segs, kids, depth)
                  + Sights(segs, NormalInstances(r, g, ns[1..]), depth)
            && Inner(Sights(segs, kids, depth), depth)
  {
    hide Normal;
    InstanceGood(ns);
    NormalShaped(r, Inside(g), OrderOf(r, g), ns[0].kids);
    var kids := Normal(r, Inside(g), OrderOf(r, g), ns[0].kids);
    SightsInner(segs, kids, depth);
    var m, rest := ns[0].(kids := kids), NormalInstances(r, g, ns[1..]);
    assert ([m] + rest)[1..] == rest;
  }

  /** What is seen of instances starts with one. */
  lemma {:induction false} InstancesStart(segs: Segments, ns: seq<Node>, r: Rules, g: Option<nat>, depth: nat)
    requires Shaped(ns, true) && PlainFraming(ns)
    ensures var ss := Sights(segs, NormalInstances(r, g, ns), depth);
            ss != [] ==> ss[0].kind.Instance? && ss[0].depth == depth
  {
    hide Normal;
    if ns != [] {
      FirstInstanceSights(segs, ns, r, g, depth);
    }
  }

  lemma {:induction false} CutInstance(i: Sight, s: seq<Sight>, s': seq<Sight>, t: seq<Sight>, t': seq<Sight>,
                                       depth: nat)
    requires Inner(s, depth) && Inner(t, depth)
    requires s' != [] ==> s'[0].kind.Instance? && s'[0].depth == depth
    requires t' != [] ==> t'[0].kind.Instance? && t'[0].depth == depth
    ensures [i] + s + s' == [i] + t + t' <==> s == t && s' == t'
  {
    if [i] + s + s' == [i] + t + t' {
      var x, y := [i] + s + s', [i] + t + t';
      TwoParts([i] + s, s');
      TwoParts([i] + t, t');
      assert forall k :: 0 <= k < |s| ==> ([i] + s)[k + 1] == s[k];
      assert forall k :: 0 <= k < |t| ==> ([i] + t)[k + 1] == t[k];
      assert s == x[1..|s| + 1] && t == y[1..|t| + 1] && s' == x[|s| + 1..] && t' == y[|t| + 1..];
    }
  }

  // ---------------------------------------------------------------------
  // One block
  // ---------------------------------------------------------------------

  /** What is seen of the piece that starts at an index, normalised. */
  function FaceAt(segs: Segments, r: Rules, w: Where, ns: seq<Node>, i: nat, depth: nat): seq<Sight>
    requires i < |ns|
  {
    Sights(segs, NormalPiece(r, w, ns[i..][..Taken(ns[i..])]), depth)
  }

  function ItemsAt(segs: Segments, r: Rules, w: Where, ns: seq<Node>, at: seq<nat>, depth: nat): seq<Item>
    requires forall k :: 0 <= k < |at| ==> at[k] < |ns|
  {
    if at == [] then []
    else [Item(ns[at[0]].entry.tag, FaceAt(segs, r, w, ns, at[0], depth))] + ItemsAt(segs, r, w, ns, at[1..], depth)
  }

  /** What is seen of a piece is nothing, or a face. */
  predicate FaceOk(segs: Segments, p: Piece, depth: nat) {
    Sights(segs, p, depth) == [] || IsFace(Item(TagOf(p), Sights(segs, p, depth)), depth)
  }

  /** A field or a group: something is seen of it if and only if it counts. */
  lemma {:induction false} OneFace(segs: Segments, r: Rules, w: Where, n: Node, depth: nat)
    requires ShapedNode(n, false) && PlainFramingIn(n) && !n.entry.kind.DataLen?
    ensures Sights(segs, [NormalNode(r, w, n)], depth) == NodeSights(segs, NormalNode(r, w, n), depth)
    ensures Sights(segs, [NormalNode(r, w, n)], depth) != [] <==> Counts(n)
    ensures FaceOk(segs, [NormalNode(r, w, n)], depth)
  {
    hide SightOf, Normal, NormalInstances;
    var x := NormalNode(r, w, n);
    SightsOne(segs, x, depth);
    if Counts(n) {
      FaceOf(segs, n, r, w, depth);
      SightIs(segs, x, depth);
      SightsDeep(segs, x.kids, KidDepth(x, depth));
    } else if n.entry.kind.Group? {
      assert n.kids == [] && x == n.(kids := NormalInstances(r, GroupAt(r, w, n.entry.tag), []));
      assert |x.kids| == 0;
    }
  }

  /** A Length and its data. */
  lemma {:induction false} PairFace(segs: Segments, a: Node, b: Node, depth: nat)
    requires ShapedNode(a, false) && ShapedNode(b, false) && PlainFramingIn(a) && PlainFramingIn(b)
    requires a.entry.kind.DataLen? && b.entry.kind.Data?
    ensures Counts(a) && Counts(b)
    ensures Sights(segs, [a, b], depth) == [SightOf(segs, Head(a, depth)), SightOf(segs, Head(b, depth))]
    ensures FaceOk(segs, [a, b], depth)
  {
    hide SightOf;
    assert [a, b] == [a] + [b];
    SightsAppend(segs, [a], [b], depth);
    SightsOne(segs, a, depth);
    SightsOne(segs, b, depth);
    SightIs(segs, a, depth);
    assert NodeSights(segs, a, depth) == [SightOf(segs, Head(a, depth))];
    assert NodeSights(segs, b, depth) == [SightOf(segs, Head(b, depth))];
  }

  /** The first piece of what is left of a block. */
  lemma {:induction false} FirstPieceFace(segs: Segments, r: Rules, w: Where, ns: seq<Node>, depth: nat)
    requires Good(ns) && ns != [] && !ns[0].entry.kind.Gap?
    ensures var k := Taken(ns);
            && k <= |ns| && Good(ns[k..])
            && FaceOk(segs, NormalPiece(r, w, ns[..k]), depth)
            && (Sights(segs, NormalPiece(r, w, ns[..k]), depth) != [] <==> Counts(ns[0]))
            && TagOf(NormalPiece(r, w, ns[..k])) == ns[0].entry.tag
  {
    hide SightOf, NodeSights, Sights, NormalNode;
    GoodFirst(ns);
    var k := Taken(ns);
    if k == 1 {
      assert ns[..1] == [ns[0]];
      OneFace(segs, r, w, ns[0], depth);
    } else {
      assert ns[..2] == [ns[0], ns[1]];
      PairFace(segs, ns[0], ns[1], depth);
    }
  }

  lemma {:induction false} GoodFirst(ns: seq<Node>)
    requires Good(ns) && ns != []
    ensures Taken(ns) <= |ns| && Good(ns[Taken(ns)..]) && PlainFramingIn(ns[0])
    ensures ns[0].entry.kind.Gap? || ShapedNode(ns[0], false)
    ensures ns[0].entry.kind.DataLen? <==> Taken(ns) == 2
    ensures Taken(ns) == 2 ==> ns[1].entry.kind.Data? && ShapedNode(ns[1], false) && PlainFramingIn(ns[1])
  {
    hide ShapedNode;
    var k := Taken(ns);
    PairedRest(ns, k);
    assert forall i :: 0 <= i < |ns[k..]| ==> ns[k..][i] == ns[i + k];
    if k == 2 {
      assert ns[1].entry.kind.Gap? || ShapedNode(ns[1], false);
    }
  }

  lemma {:induction false} PiecesFaces(segs: Segments, r: Rules, w: Where, ns: seq<Node>, depth: nat)
    requires Good(ns)
    ensures forall k :: 0 <= k < |Pieces(NormalNodes(r, w, ns))| ==> FaceOk(segs, Pieces(NormalNodes(r, w, ns))[k], depth)
    decreases |ns|
  {
    if ns != [] {
      hide FaceOk, NormalPiece, Good, Pieces, Paired, NormalNode, NormalNodes, Taken, TagOf;
      GoodPaired(ns);
      GoodFirst(ns);
      FirstNormal(r, w, ns);
      var k, ms := Taken(ns), NormalNodes(r, w, ns);
      PiecesStep(ms);
      NodesRest(r, w, ns, k);
      PiecesFaces(segs, r, w, ns[k..], depth);
      var rest := Pieces(ms[k..]);
      assert [] + rest == rest;
      if !ns[0].entry.kind.Gap? {
        FirstPieceFace(segs, r, w, ns, depth);
        FacesMore(segs, ms[..k], rest, depth);
      }
    }
  }

  lemma {:induction false} FacesMore(segs: Segments, p: Piece, ps: seq<Piece>, depth: nat)
    requires FaceOk(segs, p, depth) && forall k :: 0 <= k < |ps| ==> FaceOk(segs, ps[k], depth)
    ensures forall k :: 0 <= k < |[p] + ps| ==> FaceOk(segs, ([p] + ps)[k], depth)
  {
    hide FaceOk;
  }

  lemma {:induction false} GoodPaired(ns: seq<Node>)
    requires Good(ns)
    ensures Paired(ns)
  {
  }

  lemma {:induction false} ItemsAreFaces(segs: Segments, depth: nat, ps: seq<Piece>)
    requires forall k :: 0 <= k < |ps| ==> FaceOk(segs, ps[k], depth)
    ensures AreFaces(Items(segs, depth, ps), depth)
    decreases |ps|
  {
    hide Sights, TagOf, IsFace;
    if ps != [] {
      assert FaceOk(segs, ps[0], depth);
      ItemsAreFaces(segs, depth, ps[1..]);
    }
  }

  lemma {:induction false} SortedFaces(segs: Segments, depth: nat, order: Members, ps: seq<Piece>)
    requires forall k :: 0 <= k < |ps| ==> FaceOk(segs, ps[k], depth)
    ensures AreFaces(Items(segs, depth, Sort(order, ps)), depth)
  {
    hide FaceOk, Sort, Items;
    SortSorts(order, ps);
    var s := Sort(order, ps);
    forall k | 0 <= k < |s|
      ensures FaceOk(segs, s[k], depth)
    {
      assert s[k] in multiset(s);
      assert s[k] in ps;
    }
    ItemsAreFaces(segs, depth, s);
  }

  /** The pieces with a tag are where `Places` says. */
  lemma {:induction false} PlacesAre(segs: Segments, r: Rules, w: Where, ns: seq<Node>, i: nat, tag: nat, depth: nat)
    requires i <= |ns| && Good(ns[i..])
    ensures ItemsAt(segs, r, w, ns, Places(ns, tag, i), depth)
            == Items(segs, depth, Only(Pieces(NormalNodes(r, w, ns[i..])), tag))
    decreases |ns| - i
  {
    hide FaceOk, NormalPiece, Good, Pieces, NormalNodes, Sights, TagOf, Items, Places, Counts;
    var rest := ns[i..];
    if rest == [] {
      NoPlaces(segs, r, w, ns, i, tag, depth);
    } else {
      GoodFirst(rest);
      PiecesFirst(r, w, rest);
      var k := Taken(rest);
      var p, more := NormalPiece(r, w, rest[..k]), Pieces(NormalNodes(r, w, rest[k..]));
      assert rest[k..] == ns[i + k..] && rest[0] == ns[i];
      PlacesAre(segs, r, w, ns, i + k, tag, depth);
      PlacesFirst(segs, r, w, ns, tag, i, depth);
      if rest[0].entry.kind.Gap? {
        assert [] + more == more;
        GapUncounted(ns[i]);
      } else {
        FirstPieceFace(segs, r, w, rest, depth);
        OnlyFirst(p, more, tag);
        ItemsFirst(segs, depth, p, Only(more, tag));
      }
    }
  }

  lemma {:induction false} GapUncounted(n: Node)
    requires n.entry.kind.Gap?
    ensures !Counts(n)
  {
  }

  lemma {:induction false} NoPlaces(segs: Segments, r: Rules, w: Where, ns: seq<Node>, i: nat, tag: nat, depth: nat)
    requires i <= |ns| && ns[i..] == []
    ensures ItemsAt(segs, r, w, ns, Places(ns, tag, i), depth)
            == Items(segs, depth, Only(Pieces(NormalNodes(r, w, ns[i..])), tag)) == []
  {
  }

  lemma {:induction false} PiecesFirst(r: Rules, w: Where, ns: seq<Node>)
    requires Good(ns) && ns != []
    ensures var k := Taken(ns);
            && k <= |ns|
            && Pieces(NormalNodes(r, w, ns))
               == (if ns[0].entry.kind.Gap? then [] else [NormalPiece(r, w, ns[..k])]) + Pieces(NormalNodes(r, w, ns[k..]))
  {
    hide NormalPiece, Good, Pieces, Paired, NormalNodes;
    GoodPaired(ns);
    FirstNormal(r, w, ns);
    var ms := NormalNodes(r, w, ns);
    PiecesStep(ms);
    NodesRest(r, w, ns, Taken(ns));
  }

  lemma {:induction false} OnlyFirst(p: Piece, ps: seq<Piece>, tag: nat)
    ensures Only([p] + ps, tag) == (if TagOf(p) == tag then [p] + Only(ps, tag) else Only(ps, tag))
  {
    assert ([p] + ps)[1..] == ps && ([p] + ps)[0] == p;
  }

  lemma {:induction false} ItemsFirst(segs: Segments, depth: nat, p: Piece, ps: seq<Piece>)
    ensures Items(segs, depth, [p] + ps)
            == (if Sights(segs, p, depth) == [] then Items(segs, depth, ps)
                else [Item(TagOf(p), Sights(segs, p, depth))] + Items(segs, depth, ps))
  {
    hide Sights, TagOf;
    assert ([p] + ps)[1..] == ps && ([p] + ps)[0] == p;
  }

  lemma {:induction false} PlacesFirst(segs: Segments, r: Rules, w: Where, ns: seq<Node>, tag: nat, i: nat, depth: nat)
    requires i < |ns|
    ensures var rest := Places(ns, tag, i + Taken(ns[i..]));
            ItemsAt(segs, r, w, ns, Places(ns, tag, i), depth)
            == if Counts(ns[i]) && ns[i].entry.tag == tag
               then [Item(tag, FaceAt(segs, r, w, ns, i, depth))] + ItemsAt(segs, r, w, ns, rest, depth)
               else ItemsAt(segs, r, w, ns, rest, depth)
  {
    hide FaceAt, Counts;
    var rest := Places(ns, tag, i + Taken(ns[i..]));
    assert ([i] + rest)[1..] == rest && [] + rest == rest;
  }

  lemma {:induction false} ItemsAtSame(segs: Segments, a: seq<Node>, x: seq<nat>, segs': Segments, b: seq<Node>,
                                       y: seq<nat>, r: Rules, w: Where, depth: nat)
    requires forall k :: 0 <= k < |x| ==> x[k] < |a|
    requires forall k :: 0 <= k < |y| ==> y[k] < |b|
    requires |x| == |y| ==> forall k :: 0 <= k < |x| ==> a[x[k]].entry.tag == b[y[k]].entry.tag
    ensures ItemsAt(segs, r, w, a, x, depth) == ItemsAt(segs', r, w, b, y, depth)
            <==> |x| == |y| && forall k :: 0 <= k < |x| ==> FaceAt(segs, r, w, a, x[k], depth) == FaceAt(segs', r, w, b, y[k], depth)
    decreases |x|
  {
    hide FaceAt;
    ItemsAtLength(segs, r, w, a, x, depth);
    ItemsAtLength(segs', r, w, b, y, depth);
    if x != [] && |x| == |y| {
      ItemsAtSame(segs, a, x[1..], segs', b, y[1..], r, w, depth);
      var p, q := ItemsAt(segs, r, w, a, x, depth), ItemsAt(segs', r, w, b, y, depth);
      assert p[1..] == ItemsAt(segs, r, w, a, x[1..], depth) && q[1..] == ItemsAt(segs', r, w, b, y[1..], depth);
      assert p == [p[0]] + p[1..] && q == [q[0]] + q[1..];
      assert forall k :: 1 <= k < |x| ==> x[k] == x[1..][k - 1] && y[k] == y[1..][k - 1];
    }
  }

  lemma {:induction false} ItemsAtLength(segs: Segments, r: Rules, w: Where, ns: seq<Node>, at: seq<nat>, depth: nat)
    requires forall k :: 0 <= k < |at| ==> at[k] < |ns|
    ensures |ItemsAt(segs, r, w, ns, at, depth)| == |at|
    decreases |at|
  {
    if at != [] {
      ItemsAtLength(segs, r, w, ns, at[1..], depth);
    }
  }

  /** A place in each of two blocks: the same there if and only if what is seen there is. */
  lemma {:induction false} AtAlike(segs: Segments, a: seq<Node>, i: nat, segs': Segments, b: seq<Node>, j: nat,
                                   r: Rules, w: Where, depth: nat)
    requires Good(a) && Good(b) && i < |a| && j < |b| && Counts(a[i]) && Counts(b[j])
    ensures SameAt(segs, a, i, segs', b, j) <==> FaceAt(segs, r, w, a, i, depth) == FaceAt(segs', r, w, b, j, depth)
    decreases a, 3
  {
    hide SightOf, NodeSights, NormalNode, Sights, SameNode, ShapedNode, PlainFramingIn;
    PlaceShaped(a, i);
    PlaceShaped(b, j);
    FaceStarts(segs, r, w, a, i, depth);
    FaceStarts(segs', r, w, b, j, depth);
    if a[i].entry.kind.DataLen? && b[j].entry.kind.DataLen? {
      PairAlike(segs, a[i], a[i + 1], segs', b[j], b[j + 1], depth);
    } else if !a[i].entry.kind.DataLen? && !b[j].entry.kind.DataLen? {
      NodeAlike(segs, a[i], segs', b[j], r, w, depth);
    } else {
      KindsDiffer(segs, a[i], segs', b[j]);
    }
  }

  lemma {:induction false} KindsDiffer(segs: Segments, n: Node, segs': Segments, m: Node)
    requires n.entry.kind != m.entry.kind
    ensures !SameNode(segs, n, segs', m)
  {
  }

  lemma {:induction false} PlaceShaped(ns: seq<Node>, i: nat)
    requires Good(ns) && i < |ns| && Counts(ns[i])
    ensures ShapedNode(ns[i], false) && PlainFramingIn(ns[i])
    ensures ns[i].entry.kind.DataLen? ==>
              i + 1 < |ns| && ns[i + 1].entry.kind.Data? && ShapedNode(ns[i + 1], false) && PlainFramingIn(ns[i + 1])
  {
    hide ShapedNode;
    assert ns[i].entry.kind.Gap? || ShapedNode(ns[i], false);
    if ns[i].entry.kind.DataLen? {
      assert ns[i + 1].entry.kind.Gap? || ShapedNode(ns[i + 1], false);
    }
  }

  lemma {:induction false} FaceStarts(segs: Segments, r: Rules, w: Where, ns: seq<Node>, i: nat, depth: nat)
    requires i < |ns| && Counts(ns[i]) && ShapedNode(ns[i], false) && PlainFramingIn(ns[i])
    requires ns[i].entry.kind.DataLen? ==>
               i + 1 < |ns| && ns[i + 1].entry.kind.Data? && ShapedNode(ns[i + 1], false) && PlainFramingIn(ns[i + 1])
    ensures var f := FaceAt(segs, r, w, ns, i, depth);
            && f != [] && f[0].kind == ns[i].entry.kind
            && (ns[i].entry.kind.DataLen? ==>
                  f == [SightOf(segs, Head(ns[i], depth)), SightOf(segs, Head(ns[i + 1], depth))])
            && (!ns[i].entry.kind.DataLen? ==> f == NodeSights(segs, NormalNode(r, w, ns[i]), depth))
  {
    hide SightOf, NodeSights, NormalNode, Sights;
    var rest := ns[i..];
    if ns[i].entry.kind.DataLen? {
      assert rest[..2] == [ns[i], ns[i + 1]];
      PairFace(segs, ns[i], ns[i + 1], depth);
      SightIs(segs, ns[i], depth);
    } else {
      assert rest[..1] == [ns[i]];
      OneFace(segs, r, w, ns[i], depth);
      FaceOf(segs, ns[i], r, w, depth);
      SightIs(segs, NormalNode(r, w, ns[i]), depth);
    }
  }

  lemma {:induction false} PairAlike(segs: Segments, n: Node, n2: Node, segs': Segments, m: Node, m2: Node, depth: nat)
    requires n.entry.kind.DataLen? && n2.entry.kind.Data? && m.entry.kind.DataLen? && m2.entry.kind.Data?
    ensures SameNode(segs, n, segs', m) && SameNode(segs, n2, segs', m2)
            <==> [SightOf(segs, Head(n, depth)), SightOf(segs, Head(n2, depth))]
                 == [SightOf(segs', Head(m, depth)), SightOf(segs', Head(m2, depth))]
  {
    hide SightOf;
    SightIs(segs, n, depth);
    SightIs(segs, n2, depth);
    SightIs(segs', m, depth);
    SightIs(segs', m2, depth);
    var x, y := [SightOf(segs, Head(n, depth)), SightOf(segs, Head(n2, depth))],
                [SightOf(segs', Head(m, depth)), SightOf(segs', Head(m2, depth))];
    assert x == y <==> x[0] == y[0] && x[1] == y[1];
  }

  lemma {:induction false} UnderAlike(segs: Segments, a: seq<Node>, segs': Segments, b: seq<Node>, r: Rules, w: Where,
                                      tag: nat, depth: nat)
    requires Good(a) && Good(b)
    ensures SameUnder(segs, a, segs', b, tag)
            <==> Items(segs, depth, Only(Pieces(NormalNodes(r, w, a)), tag))
                 == Items(segs', depth, Only(Pieces(NormalNodes(r, w, b)), tag))
    decreases a, 4
  {
    hide FaceAt, SameAt, Items, Pieces, NormalNodes, Good, Counts;
    var x, y := Places(a, tag, 0), Places(b, tag, 0);
    assert a[0..] == a && b[0..] == b;
    PlacesAre(segs, r, w, a, 0, tag, depth);
    PlacesAre(segs', r, w, b, 0, tag, depth);
    ItemsAtSame(segs, a, x, segs', b, y, r, w, depth);
    if |x| == |y| {
      forall k | 0 <= k < |x|
        ensures SameAt(segs, a, x[k], segs', b, y[k])
                <==> FaceAt(segs, r, w, a, x[k], depth) == FaceAt(segs', r, w, b, y[k], depth)
      {
        AtAlike(segs, a, x[k], segs', b, y[k], r, w, depth);
      }
    }
  }

  /**
   * Two blocks, of two messages, hold the same if and only if their normal forms look the same: at
   * any depth, whatever order their definitions give.
   */
  lemma {:induction false} BlockAlike(segs: Segments, a: seq<Node>, segs': Segments, b: seq<Node>, r: Rules, w: Where,
                                      order: Members, depth: nat)
    requires Good(a) && Good(b)
    ensures SameContent(segs, a, segs', b)
            <==> Sights(segs, Normal(r, w, order, a), depth) == Sights(segs', Normal(r, w, order, b), depth)
    decreases a, 5
  {
    hide Sights, Items, Pieces, NormalNodes, Good, Sort, SameUnder, Only, SortedItems, Faces, FaceOk;
    var qa, qb := Pieces(NormalNodes(r, w, a)), Pieces(NormalNodes(r, w, b));
    var x, y := Items(segs, depth, Sort(order, qa)), Items(segs', depth, Sort(order, qb));
    JoinSights(segs, depth, Sort(order, qa));
    JoinSights(segs', depth, Sort(order, qb));
    PiecesFaces(segs, r, w, a, depth);
    PiecesFaces(segs', r, w, b, depth);
    SortedFaces(segs, depth, order, qa);
    SortedFaces(segs', depth, order, qb);
    SortedSame(segs, depth, order, qa, segs', qb);
    FacesTell(x, y, depth);
    forall tag
      ensures SameUnder(segs, a, segs', b, tag) <==> Items(segs, depth, Only(qa, tag)) == Items(segs', depth, Only(qb, tag))
    {
      UnderAlike(segs, a, segs', b, r, w, tag, depth);
    }
    ByTagIff(segs, a, segs', b, qa, qb, depth);
  }

  lemma {:induction false} ByTagIff(segs: Segments, a: seq<Node>, segs': Segments, b: seq<Node>, qa: seq<Piece>,
                                    qb: seq<Piece>, depth: nat)
    requires forall tag :: SameUnder(segs, a, segs', b, tag)
                           <==> Items(segs, depth, Only(qa, tag)) == Items(segs', depth, Only(qb, tag))
    ensures SameContent(segs, a, segs', b) <==> SameItems(segs, depth, qa, segs', qb)
  {
    hide SameUnder, Items, Only;
  }

  ghost predicate SameItems(segs: Segments, depth: nat, qa: seq<Piece>, segs': Segments, qb: seq<Piece>) {
    forall tag :: Items(segs, depth, Only(qa, tag)) == Items(segs', depth, Only(qb, tag))
  }

  lemma {:induction false} FacesTell(x: seq<Item>, y: seq<Item>, depth: nat)
    requires AreFaces(x, depth) && AreFaces(y, depth)
    ensures Faces(x) == Faces(y) <==> x == y
  {
    if Faces(x) == Faces(y) {
      FacesApart(x, y, depth);
    }
  }

  /** Sorted, they look the same if and only if they do tag by tag. */
  lemma {:induction false} SortedSame(segs: Segments, depth: nat, order: Members, qa: seq<Piece>, segs': Segments,
                                      qb: seq<Piece>)
    ensures Items(segs, depth, Sort(order, qa)) == Items(segs', depth, Sort(order, qb)) <==> SameItems(segs, depth, qa, segs', qb)
  {
    hide Items, Sort, Only, OnlyItems, SortedItems;
    var x, y := Items(segs, depth, Sort(order, qa)), Items(segs', depth, Sort(order, qb));
    forall tag
      ensures OnlyItems(x, tag) == Items(segs, depth, Only(qa, tag))
    {
      SortStable(order, qa, tag);
      ItemsOnly(segs, depth, Sort(order, qa), tag);
    }
    forall tag
      ensures OnlyItems(y, tag) == Items(segs', depth, Only(qb, tag))
    {
      SortStable(order, qb, tag);
      ItemsOnly(segs', depth, Sort(order, qb), tag);
    }
    SortSorts(order, qa);
    SortSorts(order, qb);
    ItemsSorted(segs, depth, order, Sort(order, qa));
    ItemsSorted(segs', depth, order, Sort(order, qb));
    ByTag(segs, depth, qa, segs', qb, x, y);
    if SameByTag(x, y) {
      SortedUnique(order, x, y);
    }
  }

  lemma {:induction false} ByTag(segs: Segments, depth: nat, qa: seq<Piece>, segs': Segments, qb: seq<Piece>,
                                 x: seq<Item>, y: seq<Item>)
    requires forall tag :: OnlyItems(x, tag) == Items(segs, depth, Only(qa, tag))
    requires forall tag :: OnlyItems(y, tag) == Items(segs', depth, Only(qb, tag))
    ensures SameByTag(x, y) <==> SameItems(segs, depth, qa, segs', qb)
    ensures x == y ==> SameByTag(x, y)
  {
    hide Items, Only, OnlyItems;
    if SameItems(segs, depth, qa, segs', qb) {
      forall tag
        ensures OnlyItems(x, tag) == OnlyItems(y, tag)
      {
        assert Items(segs, depth, Only(qa, tag)) == Items(segs', depth, Only(qb, tag));
      }
    }
    if SameByTag(x, y) {
      forall tag
        ensures Items(segs, depth, Only(qa, tag)) == Items(segs', depth, Only(qb, tag))
      {
        assert OnlyItems(x, tag) == OnlyItems(y, tag);
      }
    }
  }

  // ---------------------------------------------------------------------
  // Whole messages
  // ---------------------------------------------------------------------

  /** The three regions of two messages hold the same. */
  ghost predicate SameDoc(segs: Segments, doc: Doc, segs': Segments, doc': Doc) {
    && SameContent(segs, doc.header, segs', doc'.header)
    && SameContent(segs, doc.body, segs', doc'.body)
    && SameContent(segs, doc.trailer, segs', doc'.trailer)
  }

  /** A well-formed message, in which BodyLength and CheckSum are fields. */
  predicate GoodDoc(doc: Doc) {
    WellFormed(doc) && PlainFraming(doc.header) && PlainFraming(doc.body) && PlainFraming(doc.trailer)
  }

  lemma {:induction false} GoodRegions(doc: Doc)
    requires GoodDoc(doc)
    ensures Good(doc.header) && Good(doc.body) && Good(doc.trailer)
  {
    hide ShapedNode, PlainFramingIn, Paired;
    RegionShaped(doc);
  }

  /** What the walk over a normalised message sees, region by region. */
  lemma {:induction false} NormalWalk(segs: Segments, r: Rules, o: Orders, doc: Doc)
    ensures Walk(segs, ImageOf(NormalDoc(r, o, doc)).tape, 0)
            == Sights(segs, Normal(r, Outside(true), o.header, doc.header), 0)
               + Sights(segs, Normal(r, Outside(false), o.body, doc.body), 0)
               + Sights(segs, Normal(r, Outside(false), o.trailer, doc.trailer), 0)
  {
    hide Normal, Sights, Walk, ImageOf;
    var doc', h := NormalDoc(r, o, doc), Normal(r, Outside(true), o.header, doc.header);
    WalkIsSights(segs, doc');
    ForestSights(segs, doc');
    SightsAppend(segs, h, [GapNode(HEADER_GAP)], 0);
    SightsOne(segs, GapNode(HEADER_GAP), 0);
    GapUnseen(segs);
    assert Sights(segs, h, 0) + [] == Sights(segs, h, 0);
  }

  lemma {:induction false} GapUnseen(segs: Segments)
    ensures NodeSights(segs, GapNode(HEADER_GAP), 0) == []
  {
  }

  /** Messages that hold the same, wherever their bytes are, are equal once they are normalised. */
  lemma {:induction false} SameContentNormal(segs: Segments, doc: Doc, segs': Segments, doc': Doc, r: Rules, o: Orders)
    requires GoodDoc(doc) && GoodDoc(doc') && SameDoc(segs, doc, segs', doc')
    ensures SameMessage(segs, ImageOf(NormalDoc(r, o, doc)).tape, segs', ImageOf(NormalDoc(r, o, doc')).tape)
  {
    hide Normal, Sights, Walk, ImageOf, Good, GoodDoc, SameContent, NormalDoc;
    GoodRegions(doc);
    GoodRegions(doc');
    NormalWalk(segs, r, o, doc);
    NormalWalk(segs', r, o, doc');
    BlockAlike(segs, doc.header, segs', doc'.header, r, Outside(true), o.header, 0);
    BlockAlike(segs, doc.body, segs', doc'.body, r, Outside(false), o.body, 0);
    BlockAlike(segs, doc.trailer, segs', doc'.trailer, r, Outside(false), o.trailer, 0);
  }

  // ---------------------------------------------------------------------
  // Regions can be told apart by their tags
  // ---------------------------------------------------------------------

  predicate AllTagsIn(xs: seq<Item>, tags: set<nat>) {
    forall i :: 0 <= i < |xs| ==> xs[i].tag in tags
  }

  predicate NoTagsIn(xs: seq<Item>, tags: set<nat>) {
    forall i :: 0 <= i < |xs| ==> xs[i].tag !in tags
  }

  lemma {:induction false} ItemParts(a: seq<Item>, b: seq<Item>)
    ensures forall k :: 0 <= k < |a| ==> (a + b)[k] == a[k]
    ensures b != [] ==> (a + b)[|a|] == b[0]
  {
  }

  lemma {:induction false} Apart(a: seq<Item>, b: seq<Item>, c: seq<Item>, d: seq<Item>, tags: set<nat>)
    requires a + b == c + d
    requires (AllTagsIn(a, tags) && AllTagsIn(c, tags) && NoTagsIn(b, tags) && NoTagsIn(d, tags))
             || (NoTagsIn(a, tags) && NoTagsIn(c, tags) && AllTagsIn(b, tags) && AllTagsIn(d, tags))
    ensures a == c && b == d
  {
    ItemParts(a, b);
    ItemParts(c, d);
    assert a == (a + b)[..|a|] && c == (c + d)[..|c|] && b == (a + b)[|a|..] && d == (c + d)[|c|..];
  }

  lemma {:induction false} FacesAppend(a: seq<Item>, b: seq<Item>)
    ensures Faces(a + b) == Faces(a) + Faces(b)
    decreases |a|
  {
    if a == [] {
      assert a + b == b;
    } else {
      assert (a + b)[1..] == a[1..] + b;
      FacesAppend(a[1..], b);
    }
  }

  /** What is seen of a normalised block, piece by piece. */
  function BlockItems(segs: Segments, r: Rules, w: Where, order: Members, ns: seq<Node>): seq<Item> {
    Items(segs, 0, Sort(order, Pieces(NormalNodes(r, w, ns))))
  }

  lemma {:induction false} BlockItemsAre(segs: Segments, r: Rules, w: Where, order: Members, ns: seq<Node>)
    requires Good(ns)
    ensures Sights(segs, Normal(r, w, order, ns), 0) == Faces(BlockItems(segs, r, w, order, ns))
    ensures AreFaces(BlockItems(segs, r, w, order, ns), 0)
  {
    hide Sights, Items, Pieces, NormalNodes, Good, Sort, Faces, FaceOk, Join, AreFaces;
    var qs := Pieces(NormalNodes(r, w, ns));
    JoinSights(segs, 0, Sort(order, qs));
    PiecesFaces(segs, r, w, ns, 0);
    SortedFaces(segs, 0, order, qs);
  }

  lemma {:induction false} PiecesTags(r: Rules, w: Where, ns: seq<Node>, k: nat) returns (i: nat)
    requires Good(ns) && k < |Pieces(NormalNodes(r, w, ns))|
    ensures i < |ns| && !ns[i].entry.kind.Gap? && ns[i].entry.tag == TagOf(Pieces(NormalNodes(r, w, ns))[k])
    decreases |ns|
  {
    hide NormalPiece, Good, Pieces, NormalNodes;
    if ns == [] {
      NoPieces(r, w);
    } else {
      GoodFirst(ns);
      PiecesFirst(r, w, ns);
      var n := Taken(ns);
      if ns[0].entry.kind.Gap? {
        var j := PiecesTags(r, w, ns[n..], k);
        i := j + n;
      } else if k == 0 {
        i := 0;
        FirstPieceTag(r, w, ns);
      } else {
        var j := PiecesTags(r, w, ns[n..], k - 1);
        i := j + n;
      }
    }
  }

  lemma {:induction false} NoPieces(r: Rules, w: Where)
    ensures Pieces(NormalNodes(r, w, [])) == []
  {
  }

  lemma {:induction false} FirstPieceTag(r: Rules, w: Where, ns: seq<Node>)
    requires ns != [] && Taken(ns) <= |ns|
    ensures TagOf(NormalPiece(r, w, ns[..Taken(ns)])) == ns[0].entry.tag
  {
  }

  /** Every tag seen in a normalised block is a tag of the block. */
  lemma {:induction false} BlockTags(segs: Segments, r: Rules, w: Where, order: Members, ns: seq<Node>, x: nat)
    returns (i: nat)
    requires Good(ns) && x < |BlockItems(segs, r, w, order, ns)|
    ensures i < |ns| && !ns[i].entry.kind.Gap? && ns[i].entry.tag == BlockItems(segs, r, w, order, ns)[x].tag
  {
    hide Items, Pieces, NormalNodes, Good, Sort, TagOf;
    var qs := Pieces(NormalNodes(r, w, ns));
    SortSorts(order, qs);
    var s := Sort(order, qs);
    ItemsSorted(segs, 0, order, s);
    var k :| 0 <= k < |s| && TagOf(s[k]) == BlockItems(segs, r, w, order, ns)[x].tag;
    assert s[k] in multiset(s);
    assert s[k] in qs;
    var j :| 0 <= j < |qs| && qs[j] == s[k];
    i := PiecesTags(r, w, ns, j);
  }

  /** A message whose fields are in the regions their tags belong to. */
  predicate Told(dict: Dict, doc: Doc) {
    && dict.headerTags !! dict.trailerTags
    && AllStay(dict, Header, Fields(doc.header)) && AllStay(dict, Body, doc.body) && AllStay(dict, Trailer, doc.trailer)
  }

  lemma {:induction false} RegionTags(segs: Segments, r: Rules, o: Orders, doc: Doc)
    requires GoodDoc(doc) && Told(r.dict, doc)
    ensures AllTagsIn(BlockItems(segs, r, Outside(true), o.header, doc.header), r.dict.headerTags)
    ensures NoTagsIn(BlockItems(segs, r, Outside(false), o.body, doc.body), r.dict.headerTags)
    ensures NoTagsIn(BlockItems(segs, r, Outside(false), o.body, doc.body), r.dict.trailerTags)
    ensures NoTagsIn(BlockItems(segs, r, Outside(false), o.trailer, doc.trailer), r.dict.headerTags)
    ensures AllTagsIn(BlockItems(segs, r, Outside(false), o.trailer, doc.trailer), r.dict.trailerTags)
  {
    hide BlockItems, GoodDoc, Good;
    GoodRegions(doc);
    forall x | 0 <= x < |BlockItems(segs, r, Outside(true), o.header, doc.header)|
      ensures BlockItems(segs, r, Outside(true), o.header, doc.header)[x].tag in r.dict.headerTags
    {
      var i := BlockTags(segs, r, Outside(true), o.header, doc.header, x);
      assert Fields(doc.header)[i] == doc.header[i];
    }
    forall x | 0 <= x < |BlockItems(segs, r, Outside(false), o.body, doc.body)|
      ensures BlockItems(segs, r, Outside(false), o.body, doc.body)[x].tag !in r.dict.headerTags
      ensures BlockItems(segs, r, Outside(false), o.body, doc.body)[x].tag !in r.dict.trailerTags
    {
      var i := BlockTags(segs, r, Outside(false), o.body, doc.body, x);
    }
    forall x | 0 <= x < |BlockItems(segs, r, Outside(false), o.trailer, doc.trailer)|
      ensures BlockItems(segs, r, Outside(false), o.trailer, doc.trailer)[x].tag in r.dict.trailerTags
    {
      var i := BlockTags(segs, r, Outside(false), o.trailer, doc.trailer, x);
    }
  }

  lemma {:induction false} ThreeFaces(a: seq<Item>, b: seq<Item>, c: seq<Item>)
    requires AreFaces(a, 0) && AreFaces(b, 0) && AreFaces(c, 0)
    ensures AreFaces(a + b + c, 0) && Faces(a + b + c) == Faces(a) + Faces(b) + Faces(c)
  {
    hide IsFace, Faces;
    FacesAppend(a + b, c);
    FacesAppend(a, b);
  }

  lemma {:induction false} ThreeApart(a: seq<Item>, b: seq<Item>, c: seq<Item>, a': seq<Item>, b': seq<Item>,
                                      c': seq<Item>, dict: Dict)
    requires AllTagsIn(a, dict.headerTags) && NoTagsIn(b, dict.headerTags) && NoTagsIn(c, dict.headerTags)
    requires AllTagsIn(a', dict.headerTags) && NoTagsIn(b', dict.headerTags) && NoTagsIn(c', dict.headerTags)
    requires NoTagsIn(b, dict.trailerTags) && AllTagsIn(c, dict.trailerTags)
    requires NoTagsIn(b', dict.trailerTags) && AllTagsIn(c', dict.trailerTags)
    requires a + b + c == a' + b' + c'
    ensures a == a' && b == b' && c == c'
  {
    assert a + (b + c) == a + b + c && a' + (b' + c') == a' + b' + c';
    Apart(a, b + c, a', b' + c', dict.headerTags);
    Apart(b, c, b', c', dict.trailerTags);
  }

  /**
   * The canonical form: two messages whose regions can be told by their tags are equal once they are
   * normalised if and only if they hold the same, block by block and tag by tag, to any depth.
   */
  lemma {:induction false} NormalAlike(segs: Segments, doc: Doc, segs': Segments, doc': Doc, r: Rules, o: Orders)
    requires GoodDoc(doc) && GoodDoc(doc') && Told(r.dict, doc) && Told(r.dict, doc')
    ensures SameMessage(segs, ImageOf(NormalDoc(r, o, doc)).tape, segs', ImageOf(NormalDoc(r, o, doc')).tape)
            <==> SameDoc(segs, doc, segs', doc')
  {
    hide *;
    if SameMessage(segs, ImageOf(NormalDoc(r, o, doc)).tape, segs', ImageOf(NormalDoc(r, o, doc')).tape) {
      NormalSame(segs, doc, segs', doc', r, o);
    } else if SameDoc(segs, doc, segs', doc') {
      SameContentNormal(segs, doc, segs', doc', r, o);
    }
  }

  lemma {:induction false} NormalSame(segs: Segments, doc: Doc, segs': Segments, doc': Doc, r: Rules, o: Orders)
    requires GoodDoc(doc) && GoodDoc(doc') && Told(r.dict, doc) && Told(r.dict, doc')
    requires SameMessage(segs, ImageOf(NormalDoc(r, o, doc)).tape, segs', ImageOf(NormalDoc(r, o, doc')).tape)
    ensures SameDoc(segs, doc, segs', doc')
  {
    hide Normal, Sights, Walk, ImageOf, Good, GoodDoc, SameContent, NormalDoc, BlockItems, AreFaces, Faces, AllTagsIn, NoTagsIn, Told;
    GoodRegions(doc);
    GoodRegions(doc');
    NormalWalk(segs, r, o, doc);
    NormalWalk(segs', r, o, doc');
    var a, b, c := BlockItems(segs, r, Outside(true), o.header, doc.header),
                   BlockItems(segs, r, Outside(false), o.body, doc.body),
                   BlockItems(segs, r, Outside(false), o.trailer, doc.trailer);
    var a', b', c' := BlockItems(segs', r, Outside(true), o.header, doc'.header),
                      BlockItems(segs', r, Outside(false), o.body, doc'.body),
                      BlockItems(segs', r, Outside(false), o.trailer, doc'.trailer);
    DocItems(segs, r, o, doc);
    DocItems(segs', r, o, doc');
    ThreeFaces(a, b, c);
    ThreeFaces(a', b', c');
    FacesApart(a + b + c, a' + b' + c', 0);
    RegionTags(segs, r, o, doc);
    RegionTags(segs', r, o, doc');
    ThreeApart(a, b, c, a', b', c', r.dict);
    BlockAlike(segs, doc.header, segs', doc'.header, r, Outside(true), o.header, 0);
    BlockAlike(segs, doc.body, segs', doc'.body, r, Outside(false), o.body, 0);
    BlockAlike(segs, doc.trailer, segs', doc'.trailer, r, Outside(false), o.trailer, 0);
  }

  lemma {:induction false} DocItems(segs: Segments, r: Rules, o: Orders, doc: Doc)
    requires Good(doc.header) && Good(doc.body) && Good(doc.trailer)
    ensures Sights(segs, Normal(r, Outside(true), o.header, doc.header), 0)
            == Faces(BlockItems(segs, r, Outside(true), o.header, doc.header))
    ensures Sights(segs, Normal(r, Outside(false), o.body, doc.body), 0)
            == Faces(BlockItems(segs, r, Outside(false), o.body, doc.body))
    ensures Sights(segs, Normal(r, Outside(false), o.trailer, doc.trailer), 0)
            == Faces(BlockItems(segs, r, Outside(false), o.trailer, doc.trailer))
    ensures AreFaces(BlockItems(segs, r, Outside(true), o.header, doc.header), 0)
    ensures AreFaces(BlockItems(segs, r, Outside(false), o.body, doc.body), 0)
    ensures AreFaces(BlockItems(segs, r, Outside(false), o.trailer, doc.trailer), 0)
  {
    hide *;
    BlockItemsAre(segs, r, Outside(true), o.header, doc.header);
    BlockItemsAre(segs, r, Outside(false), o.body, doc.body);
    BlockItemsAre(segs, r, Outside(false), o.trailer, doc.trailer);
  }

  // ---------------------------------------------------------------------
  // Tags that do not repeat, and tags that do
  // ---------------------------------------------------------------------

  /** No tag comes twice in the block. */
  ghost predicate UniqueHere(ns: seq<Node>) {
    forall tag :: |Places(ns, tag, 0)| <= 1
  }

  /** The field or group at an index has its like at one of these. */
  ghost predicate HasLike(segs: Segments, a: seq<Node>, i: nat, segs': Segments, b: seq<Node>, at: seq<nat>)
    requires i < |a| && forall l :: 0 <= l < |at| ==> at[l] < |b|
  {
    exists l :: 0 <= l < |at| && SameAt(segs, a, i, segs', b, at[l])
  }

  /** Each field or group with a tag has its like in another block, which has as many. */
  ghost predicate MatchedUnder(segs: Segments, a: seq<Node>, segs': Segments, b: seq<Node>, tag: nat) {
    var x, y := Places(a, tag, 0), Places(b, tag, 0);
    && |x| == |y|
    && forall k :: 0 <= k < |x| ==> HasLike(segs, a, x[k], segs', b, y)
  }

  ghost predicate Matched(segs: Segments, a: seq<Node>, segs': Segments, b: seq<Node>) {
    forall tag :: MatchedUnder(segs, a, segs', b, tag)
  }

  lemma {:induction false} MatchedIsSame(segs: Segments, a: seq<Node>, segs': Segments, b: seq<Node>, tag: nat)
    requires |Places(a, tag, 0)| <= 1
    ensures SameUnder(segs, a, segs', b, tag) <==> MatchedUnder(segs, a, segs', b, tag)
  {
    hide SameAt, Places;
    var x, y := Places(a, tag, 0), Places(b, tag, 0);
    if SameUnder(segs, a, segs', b, tag) {
      forall k | 0 <= k < |x|
        ensures HasLike(segs, a, x[k], segs', b, y)
      {
        assert SameAt(segs, a, x[k], segs', b, y[k]);
      }
      assert MatchedUnder(segs, a, segs', b, tag);
    }
    if MatchedUnder(segs, a, segs', b, tag) {
      forall k | 0 <= k < |x|
        ensures SameAt(segs, a, x[k], segs', b, y[k])
      {
        assert HasLike(segs, a, x[k], segs', b, y);
        var l :| 0 <= l < |y| && SameAt(segs, a, x[k], segs', b, y[l]);
        assert l == 0 && k == 0;
      }
      assert SameUnder(segs, a, segs', b, tag);
    }
  }

  /**
   * Where no tag comes twice the order of fields does not matter at all: two blocks hold the same if
   * and only if they have the same tags, and what one has under a tag the other has.
   */
  lemma {:induction false} OrderUnseen(segs: Segments, a: seq<Node>, segs': Segments, b: seq<Node>)
    requires UniqueHere(a)
    ensures SameContent(segs, a, segs', b) <==> Matched(segs, a, segs', b)
  {
    hide SameUnder, MatchedUnder, Places;
    forall tag
      ensures SameUnder(segs, a, segs', b, tag) <==> MatchedUnder(segs, a, segs', b, tag)
    {
      MatchedIsSame(segs, a, segs', b, tag);
    }
  }

  predicate IsPlain(n: Node) {
    n.entry.kind.Field? && n.kids == [] && n.entry.tag != 9 && n.entry.tag != 10
  }

  lemma {:induction false} TwoPlaces(a: Node, b: Node, tag: nat)
    requires IsPlain(a) && IsPlain(b)
    ensures Places([a, b], tag, 0) == (if a.entry.tag == tag then [0] else []) + (if b.entry.tag == tag then [1] else [])
  {
    var ns := [a, b];
    assert Places(ns, tag, 2) == [];
    assert ns[1..] == [b] && ns[0..] == ns && Taken([b]) == 1 && Taken(ns) == 1;
    assert Places(ns, tag, 1) == (if b.entry.tag == tag then [1] else []) + [];
  }

  lemma {:induction false} TwoGood(a: Node, b: Node)
    requires IsPlain(a) && IsPlain(b)
    ensures Good([a, b])
  {
    assert ShapedNode(a, false) && ShapedNode(b, false) && PlainFramingIn(a) && PlainFramingIn(b);
  }

  /** Two fields, in either order, in two messages that store them anywhere: one normal form. */
  lemma {:induction false} OrderOfTagsUnseen(segs: Segments, a: Node, b: Node, segs': Segments, a': Node, b': Node,
                                             r: Rules, w: Where, order: Members, depth: nat)
    requires IsPlain(a) && IsPlain(b) && IsPlain(a') && IsPlain(b')
    requires a.entry.tag == a'.entry.tag != b.entry.tag == b'.entry.tag
    requires TextOf(segs, a.entry) == TextOf(segs', a'.entry) && TextOf(segs, b.entry) == TextOf(segs', b'.entry)
    ensures Sights(segs, Normal(r, w, order, [a, b]), depth) == Sights(segs', Normal(r, w, order, [b', a']), depth)
  {
    hide Sights, Normal, TextOf;
    TwoGood(a, b);
    TwoGood(b', a');
    forall tag
      ensures SameUnder(segs, [a, b], segs', [b', a'], tag)
    {
      TwoPlaces(a, b, tag);
      TwoPlaces(b', a', tag);
      assert SameNode(segs, a, segs', a') && SameNode(segs, b, segs', b');
      assert SameAt(segs, [a, b], 0, segs', [b', a'], 1) && SameAt(segs, [a, b], 1, segs', [b', a'], 0);
      hide SameAt;
      assert [0] + [] == [0] && [] + [1] == [1];
    }
    BlockAlike(segs, [a, b], segs', [b', a'], r, w, order, depth);
  }

  /** But two fields of one tag with different values give two normal forms, one for each order. */
  lemma {:induction false} RepeatsKeepOrder(segs: Segments, a: Node, b: Node, r: Rules, w: Where, order: Members,
                                            depth: nat)
    requires IsPlain(a) && IsPlain(b) && a.entry.tag == b.entry.tag && TextOf(segs, a.entry) != TextOf(segs, b.entry)
    ensures Sights(segs, Normal(r, w, order, [a, b]), depth) != Sights(segs, Normal(r, w, order, [b, a]), depth)
  {
    hide Sights, Normal, TextOf;
    TwoGood(a, b);
    TwoGood(b, a);
    var tag := a.entry.tag;
    TwoPlaces(a, b, tag);
    TwoPlaces(b, a, tag);
    assert !SameNode(segs, a, segs, b);
    assert Places([a, b], tag, 0)[0] == 0 && Places([b, a], tag, 0)[0] == 0;
    assert !SameAt(segs, [a, b], 0, segs, [b, a], 0);
    hide SameAt, Places;
    assert !SameUnder(segs, [a, b], segs, [b, a], tag);
    BlockAlike(segs, [a, b], segs, [b, a], r, w, order, depth);
  }

  // ---------------------------------------------------------------------
  // Normalising twice
  // ---------------------------------------------------------------------

  lemma {:induction false} PiecesBeforeGap(ns: seq<Node>, gap: Node)
    requires gap.entry.kind.Gap? && Paired(ns)
    ensures Pieces(ns + [gap]) == Pieces(ns)
    decreases |ns|
  {
    if ns == [] {
      assert ns + [gap] == [gap] && [gap][1..] == [];
    } else {
      var k, all := Taken(ns), ns + [gap];
      PairedRest(ns, k);
      PiecesBeforeGap(ns[k..], gap);
      PiecesStep(ns);
      PiecesStep(all);
      assert Taken(all) == k && all[k..] == ns[k..] + [gap] && all[..k] == ns[..k] && all[0] == ns[0];
    }
  }

  lemma {:induction false} NodesBeforeGap(r: Rules, w: Where, ns: seq<Node>, gap: Node)
    requires gap.entry.kind.Gap?
    ensures NormalNodes(r, w, ns + [gap]) == NormalNodes(r, w, ns) + [gap]
    decreases |ns|
  {
    hide NormalInstances;
    if ns == [] {
      assert ns + [gap] == [gap] && [gap][1..] == [];
    } else {
      assert (ns + [gap])[1..] == ns[1..] + [gap];
      NodesBeforeGap(r, w, ns[1..], gap);
    }
  }

  /** Normalising a normalised message changes nothing; its header's gap is put back as it is. */
  lemma {:induction false} NormalDocTwice(r: Rules, o: Orders, doc: Doc)
    requires WellFormed(doc)
    ensures NormalDoc(r, o, NormalDoc(r, o, doc)) == NormalDoc(r, o, doc)
  {
    hide ShapedNode, Paired, Pieces, Sort, NormalNodes, Shaped;
    RegionShaped(doc);
    var w, h, gap := Outside(true), Normal(r, Outside(true), o.header, doc.header), GapNode(HEADER_GAP);
    NormalTwice(r, w, o.header, doc.header);
    NormalTwice(r, Outside(false), o.body, doc.body);
    NormalTwice(r, Outside(false), o.trailer, doc.trailer);
    NormalShaped(r, w, o.header, doc.header);
    ShapedPaired(h);
    NodesBeforeGap(r, w, h, gap);
    NormalPaired(r, w, h);
    PiecesBeforeGap(NormalNodes(r, w, h), gap);
  }

  lemma {:induction false} ShapedPaired(ns: seq<Node>)
    requires Shaped(ns, false)
    ensures Paired(ns)
  {
  }
}
