/**
 * Finding one's way on the flat tape (message/view.rs): the walk that discovers an entry's owner,
 * and addresses, which are taken from an entry and lead back to it.
 */
module Navigation {
  import opened Tape
  import opened Document
  import opened Editing
  import opened Lookup
  import opened Messages
  import opened Groups
  import opened Shape
  import opened Pruning

  // ---------------------------------------------------------------------
  // Positions
  // ---------------------------------------------------------------------

  /** A node of a message: the `k`th of the block a path leads to. */
  predicate IsNode(doc: Doc, r: Region, p: Path, k: nat) {
    IsBlock(doc, r, p) && k < |Block(Part(doc, r), p)|
  }

  /** What encloses a node is a node of the block around. */
  lemma {:induction false} OutOne(ns: seq<Node>, p: Path)
    requires ValidPath(ns, p) && Spanned(ns, p) && p != []
    ensures var q, j := p[..|p| - 1], p[|p| - 1];
            && ValidPath(ns, q) && Spanned(ns, q) && j < |Block(ns, q)|
            && (Block(ns, q)[j].entry.kind.Group? || Block(ns, q)[j].entry.kind.Instance?)
            && Block(ns, q)[j].kids == Block(ns, p) && Owner(ns, p) == Block(ns, q)[j]
            && p == q + [j]
    decreases p
  {
    var q := p[..|p| - 1];
    if |p| > 1 {
      OutOne(ns[p[0]].kids, p[1..]);
      assert q[1..] == p[1..][..|p[1..]| - 1] && q[0] == p[0];
    }
  }

  lemma {:induction false} Out(doc: Doc, r: Region, p: Path)
    requires IsBlock(doc, r, p) && p != []
    ensures Opens(doc, r, p[..|p| - 1], p[|p| - 1]) && p == p[..|p| - 1] + [p[|p| - 1]]
    ensures Block(Part(doc, r), p[..|p| - 1])[p[|p| - 1]].kids == Block(Part(doc, r), p)
    ensures Block(Part(doc, r), p[..|p| - 1])[p[|p| - 1]] == Owner(Part(doc, r), p)
  {
    OutOne(Part(doc, r), p);
  }

  /** Everything in a block lies within the node it is in. */
  lemma {:induction false} WithinOwner(doc: Doc, r: Region, q: Path, j: nat, k: nat)
    requires Opens(doc, r, q, j) && k <= |Block(Part(doc, r), q)[j].kids|
    ensures IsBlock(doc, r, q + [j]) && Block(Part(doc, r), q + [j]) == Block(Part(doc, r), q)[j].kids
    ensures At(doc, r, q, j) < At(doc, r, q + [j], k) <= At(doc, r, q, j + 1)
    ensures k < |Block(Part(doc, r), q)[j].kids| ==> At(doc, r, q + [j], k) < At(doc, r, q, j + 1)
  {
    hide Part, Block, At, ImageOf;
    ChildrenEnd(doc, r, q, j);
    AtOrdered(doc, r, q + [j], 0, k);
    AtOrdered(doc, r, q + [j], k, |Block(Part(doc, r), q)[j].kids|);
  }

  /** A node reached through another lies within it, however deep. */
  lemma {:induction false} WithinNode(doc: Doc, r: Region, q: Path, j: nat, s: Path, k: nat)
    requires IsNode(doc, r, q + [j] + s, k)
    ensures Opens(doc, r, q, j)
    ensures At(doc, r, q, j) < At(doc, r, q + [j] + s, k) < At(doc, r, q, j + 1)
    decreases |s|
  {
    hide Part, Block, At, ImageOf;
    var p := q + [j] + s;
    Out(doc, r, p);
    WithinOwner(doc, r, p[..|p| - 1], p[|p| - 1], k);
    if s == [] {
      assert p == q + [j] && p[..|p| - 1] == q;
    } else {
      var s' := s[..|s| - 1];
      assert p[..|p| - 1] == q + [j] + s' && p[|p| - 1] == s[|s| - 1];
      WithinNode(doc, r, q, j, s', s[|s| - 1]);
      EntryAt(doc, r, q + [j] + s', s[|s| - 1]);
      NodeEnd(doc, r, q, j, s', s[|s| - 1]);
    }
  }

  /** ... and ends within it. */
  lemma {:induction false} NodeEnd(doc: Doc, r: Region, q: Path, j: nat, s: Path, k: nat)
    requires IsNode(doc, r, q + [j] + s, k) && Opens(doc, r, q, j)
    ensures At(doc, r, q + [j] + s, k + 1) <= At(doc, r, q, j + 1)
    decreases |s|
  {
    hide Part, Block, At, ImageOf;
    var p := q + [j] + s;
    Out(doc, r, p);
    WithinOwner(doc, r, p[..|p| - 1], p[|p| - 1], k + 1);
    if s == [] {
      assert p[..|p| - 1] == q;
    } else {
      var s' := s[..|s| - 1];
      assert p[..|p| - 1] == q + [j] + s' && p[|p| - 1] == s[|s| - 1];
      NodeEnd(doc, r, q, j, s', s[|s| - 1]);
    }
  }

  // ---------------------------------------------------------------------
  // What encloses an entry
  // ---------------------------------------------------------------------

  /** Walking down towards an index: over a sibling, or into the one that holds it. */
  function Enclosing(tape: seq<Entry>, i: nat, idx: nat, found: Option<nat>): Option<nat>
    requires idx <= |tape|
    decreases idx - i
  {
    if i >= idx then found
    else if i + tape[i].Span() > idx then Enclosing(tape, i + 1, idx, Some(i))
    else Enclosing(tape, i + tape[i].Span(), idx, found)
  }

  predicate LeafyAll(doc: Doc, r: Region, p: Path)
    requires IsBlock(doc, r, p)
  {
    forall i :: 0 <= i < |Block(Part(doc, r), p)| ==> Leafy(Block(Part(doc, r), p)[i])
  }

  /** Siblings before the index are skipped. */
  lemma {:induction false} SkipSiblings(doc: Doc, r: Region, q: Path, i: nat, j: nat, idx: nat, found: Option<nat>)
    requires IsBlock(doc, r, q) && i <= j <= |Block(Part(doc, r), q)| && LeafyAll(doc, r, q)
    requires At(doc, r, q, j) <= idx <= |ImageOf(doc).tape|
    ensures Enclosing(ImageOf(doc).tape, At(doc, r, q, i), idx, found)
            == Enclosing(ImageOf(doc).tape, At(doc, r, q, j), idx, found)
    decreases j - i
  {
    hide Part, Block, At, ImageOf, Head;
    if i < j {
      EntryAt(doc, r, q, i);
      SpanIsSize(Block(Part(doc, r), q)[i], Depth(doc, r, q));
      AtOrdered(doc, r, q, i + 1, j);
      SkipSiblings(doc, r, q, i + 1, j, idx, found);
    }
  }

  /** Every block on the way down is leafy: fields have nothing below them. */
  predicate LeafyDown(doc: Doc, r: Region, p: Path)
    requires IsBlock(doc, r, p)
    decreases |p|
  {
    LeafyAll(doc, r, p) && (p != [] ==> (Out(doc, r, p); LeafyDown(doc, r, p[..|p| - 1])))
  }

  /** The walk from a block's start to an entry in it, or below it, comes to the node that holds the entry. */
  lemma {:induction false} WalkDown(doc: Doc, r: Region, q: Path, s: Path, k: nat, found: Option<nat>)
    requires IsNode(doc, r, q + s, k) && LeafyDown(doc, r, q + s) && IsBlock(doc, r, q)
    requires At(doc, r, q + s, k) <= |ImageOf(doc).tape|
    ensures Enclosing(ImageOf(doc).tape, At(doc, r, q, 0), At(doc, r, q + s, k), found)
            == if s == [] then found else Some(OwnerIndex(doc, r, q + s))
    decreases |s|
  {
    hide Part, Block, At, ImageOf, Enclosing, OwnerIndex, LeafyDown, LeafyAll;
    var idx := At(doc, r, q + s, k);
    LeafyPrefix(doc, r, q, s);
    if s == [] {
      assert q + s == q;
      SkipSiblings(doc, r, q, 0, k, idx, found);
      Arrived(ImageOf(doc).tape, idx, found);
    } else {
      var j, s' := s[0], s[1..];
      assert q + s == q + [j] + s';
      WithinNode(doc, r, q, j, s', k);
      IntoNode(doc, r, q, j, idx, found);
      Further(doc, r, q, j);
      WalkDown(doc, r, q + [j], s', k, Some(At(doc, r, q, j)));
      if s' == [] {
        assert q + s == q + [j];
        OwnerIndexIs(doc, r, q, j);
      }
    }
  }

  lemma {:induction false} Arrived(tape: seq<Entry>, idx: nat, found: Option<nat>)
    requires idx <= |tape|
    ensures Enclosing(tape, idx, idx, found) == found
  {
  }

  /** Past the siblings before it, and into the node that holds an index. */
  lemma {:induction false} IntoNode(doc: Doc, r: Region, q: Path, j: nat, idx: nat, found: Option<nat>)
    requires Opens(doc, r, q, j) && LeafyAll(doc, r, q) && idx <= |ImageOf(doc).tape|
    requires At(doc, r, q, j) < idx < At(doc, r, q, j + 1)
    ensures Enclosing(ImageOf(doc).tape, At(doc, r, q, 0), idx, found)
            == Enclosing(ImageOf(doc).tape, At(doc, r, q, j) + 1, idx, Some(At(doc, r, q, j)))
  {
    hide Part, Block, At, ImageOf, Head;
    SkipSiblings(doc, r, q, 0, j, idx, found);
    EntryAt(doc, r, q, j);
    SpanIsSize(Block(Part(doc, r), q)[j], Depth(doc, r, q));
  }

  /** The entry of the group or instance a block is in. */
  function OwnerIndex(doc: Doc, r: Region, p: Path): nat
    requires IsBlock(doc, r, p) && p != []
  {
    Out(doc, r, p);
    At(doc, r, p[..|p| - 1], p[|p| - 1])
  }

  lemma {:induction false} OwnerIndexIs(doc: Doc, r: Region, q: Path, j: nat)
    requires Opens(doc, r, q, j) && IsBlock(doc, r, q + [j])
    ensures OwnerIndex(doc, r, q + [j]) == At(doc, r, q, j)
  {
    assert (q + [j])[..|q|] == q;
  }

  lemma {:induction false} LeafyPrefix(doc: Doc, r: Region, q: Path, s: Path)
    requires IsBlock(doc, r, q + s) && LeafyDown(doc, r, q + s) && IsBlock(doc, r, q)
    ensures LeafyAll(doc, r, q)
    decreases |s|
  {
    if s == [] {
      assert q + s == q;
    } else {
      Out(doc, r, q + s);
      assert (q + s)[..|q + s| - 1] == q + s[..|s| - 1];
      LeafyPrefix(doc, r, q, s[..|s| - 1]);
    }
  }

  // ---------------------------------------------------------------------
  // Addresses
  // ---------------------------------------------------------------------

  /** The steps down to a block, each a group's tag and an instance of it, and the tag of a field or group there. */
  datatype Address = Address(region: Region, steps: seq<(nat, nat)>, tag: Option<nat>)

  /** Groups and instances take turns on the way down. */
  lemma {:induction false} TakeTurns(ns: seq<Node>, p: Path, group: bool)
    requires Shaped(ns, group) && ValidPath(ns, p) && Spanned(ns, p)
    ensures IntoGroup(ns, p, group) == (group == (|p| % 2 == 0))
    decreases p
  {
    if p != [] {
      ShapedAt(ns, group, p[0]);
      TakeTurns(ns[p[0]].kids, p[1..], ns[p[0]].entry.kind.Group?);
    }
  }

  lemma {:induction false} BlockKinds(doc: Doc, r: Region, p: Path, k: nat)
    requires WellFormed(doc) && IsNode(doc, r, p, k)
    ensures |p| % 2 == 0 ==> HoldsFields(doc, r, p) && !Block(Part(doc, r), p)[k].entry.kind.Instance?
    ensures |p| % 2 == 1 ==> Block(Part(doc, r), p)[k].entry.kind.Instance?
    ensures LeafyAll(doc, r, p)
    ensures p != [] ==> !Block(Part(doc, r), p)[k].entry.kind.Gap?
  {
    var ns, block := Part(doc, r), Block(Part(doc, r), p);
    BlocksShaped(doc, r, p, block);
    if p == [] {
      FieldsShaped(doc, r, p);
      var fields := if r == Header then Fields(block) else block;
      forall i | 0 <= i < |block| ensures Leafy(block[i]) && !block[i].entry.kind.Instance? {
        if i < |fields| {
          assert fields[i] == block[i];
          ShapedAt(fields, false, i);
        }
      }
    } else {
      IntoGroupOwner(ns, p, false);
      TurnsInDoc(doc, r, p);
      OwnerKind(ns, p);
      forall i | 0 <= i < |block| ensures Leafy(block[i]) && (block[i].entry.kind.Instance? <==> |p| % 2 == 1) && !block[i].entry.kind.Gap? {
        ShapedAt(block, IntoGroup(ns, p, false), i);
      }
    }
  }

  lemma {:induction false} TurnsInDoc(doc: Doc, r: Region, p: Path)
    requires WellFormed(doc) && IsBlock(doc, r, p) && p != []
    ensures IntoGroup(Part(doc, r), p, false) == (|p| % 2 == 1)
  {
    if r == Header {
      HeaderFields(doc.header, p, []);
      TakeTurns(Fields(doc.header), p, false);
    } else {
      TakeTurns(Part(doc, r), p, false);
    }
  }

  lemma {:induction false} OwnerKind(ns: seq<Node>, p: Path)
    requires ValidPath(ns, p) && Spanned(ns, p) && p != []
    ensures Owner(ns, p).entry.kind.Group? || Owner(ns, p).entry.kind.Instance?
    decreases p
  {
    if |p| > 1 {
      OwnerKind(ns[p[0]].kids, p[1..]);
    }
  }

  lemma {:induction false} AllLeafyDown(doc: Doc, r: Region, p: Path, k: nat)
    requires WellFormed(doc) && IsNode(doc, r, p, k)
    ensures LeafyDown(doc, r, p)
    decreases |p|
  {
    BlockKinds(doc, r, p, k);
    if p != [] {
      Out(doc, r, p);
      AllLeafyDown(doc, r, p[..|p| - 1], p[|p| - 1]);
    }
  }

  /** The steps from one block down to another. */
  function Steps(doc: Doc, r: Region, q: Path, s: Path): seq<(nat, nat)>
    decreases |s|
  {
    if |s| < 2 || !IsNode(doc, r, q, s[0]) then []
    else [(Block(Part(doc, r), q)[s[0]].entry.tag, s[1])] + Steps(doc, r, q + [s[0]] + [s[1]], s[2..])
  }

  /** The address of a node: its block's, and its tag, or for an instance the step into it. */
  function AddressOf(doc: Doc, r: Region, p: Path, k: nat): Address
    requires IsNode(doc, r, p, k)
  {
    var n := Block(Part(doc, r), p)[k];
    if n.entry.kind.Instance? then Address(r, Steps(doc, r, [], p + [k]), None)
    else Address(r, Steps(doc, r, [], p), Some(n.entry.tag))
  }

  /** Following steps down, by the first group with each tag, to a tag's first field or group, or to an instance. */
  function Resolved(doc: Doc, r: Region, q: Path, steps: seq<(nat, nat)>, tag: Option<nat>, last: Option<nat>): Option<nat>
    requires IsBlock(doc, r, q)
    decreases |steps|
  {
    var block := Block(Part(doc, r), q);
    if steps == [] then
      match tag {
        case None => last
        case Some(t) =>
          var k := First(block, HasTag(t));
          if k < |block| then Some(At(doc, r, q, k)) else None
      }
    else
      var (g, n) := steps[0];
      var k := First(block, HasTag(g));
      if k < |block| && block[k].entry.kind.Group? && n < |block[k].kids| && block[k].kids[n].entry.kind.Instance? then
        Further(doc, r, q, k);
        Further(doc, r, q + [k], n);
        Resolved(doc, r, q + [k] + [n], steps[1..], tag, Some(At(doc, r, q + [k], n)))
      else None
  }

  /** On the way down to a node, each group is the first with its tag, and so is the node itself. */
  predicate FirstOnTheWay(doc: Doc, r: Region, q: Path, s: Path, k: nat)
    requires IsNode(doc, r, q + s, k)
    decreases |s|
  {
    if s == [] then
      var block := Block(Part(doc, r), q + s);
      !block[k].entry.kind.Instance? ==> First(block, HasTag(block[k].entry.tag)) == k
    else
      WithinWay(doc, r, q, s, k);
      var block := Block(Part(doc, r), q);
      && First(block, HasTag(block[s[0]].entry.tag)) == s[0]
      && (|s| > 1 ==> (Regrouped(q, s); FirstOnTheWay(doc, r, q + [s[0]] + [s[1]], s[2..], k)))
  }

  lemma {:induction false} WithinWay(doc: Doc, r: Region, q: Path, s: Path, k: nat)
    requires IsNode(doc, r, q + s, k) && s != []
    ensures Opens(doc, r, q, s[0])
  {
    assert q + s == q + [s[0]] + s[1..];
    WithinNode(doc, r, q, s[0], s[1..], k);
  }

  lemma {:induction false} Regrouped(q: Path, s: Path)
    requires |s| > 1
    ensures q + s == q + [s[0]] + [s[1]] + s[2..]
  {
  }

  /** What is found from a block on lies in the block, unless it is where the steps left off. */
  lemma {:induction false} ResolvedInside(doc: Doc, r: Region, q: Path, steps: seq<(nat, nat)>, tag: Option<nat>,
                                          last: Option<nat>)
    requires IsBlock(doc, r, q)
    ensures var i := Resolved(doc, r, q, steps, tag, last);
            i == None || i == last || At(doc, r, q, 0) <= i.value < At(doc, r, q, |Block(Part(doc, r), q)|)
    decreases |steps|
  {
    var block := Block(Part(doc, r), q);
    if steps == [] {
      if tag.Some? {
        var k := First(block, HasTag(tag.value));
        AtOrdered(doc, r, q, 0, k);
        AtOrdered(doc, r, q, k, |block|);
      }
    } else {
      var (g, n) := steps[0];
      var k := First(block, HasTag(g));
      if k < |block| && block[k].entry.kind.Group? && n < |block[k].kids| && block[k].kids[n].entry.kind.Instance? {
        Further(doc, r, q, k);
        Further(doc, r, q + [k], n);
        ResolvedInside(doc, r, q + [k] + [n], steps[1..], tag, Some(At(doc, r, q + [k], n)));
        InsideInstance(doc, r, q, k, n);
      }
    }
  }

  lemma {:induction false} InsideInstance(doc: Doc, r: Region, q: Path, k: nat, n: nat)
    requires Opens(doc, r, q, k) && IsBlock(doc, r, q + [k]) && Opens(doc, r, q + [k], n)
    requires Block(Part(doc, r), q + [k]) == Block(Part(doc, r), q)[k].kids
    ensures IsBlock(doc, r, q + [k] + [n])
    ensures At(doc, r, q, 0) <= At(doc, r, q, k) < At(doc, r, q + [k], n) < At(doc, r, q + [k] + [n], 0)
    ensures At(doc, r, q + [k] + [n], 0) <= At(doc, r, q + [k] + [n], |Block(Part(doc, r), q + [k] + [n])|)
            <= At(doc, r, q, k + 1) <= At(doc, r, q, |Block(Part(doc, r), q)|)
  {
    hide Part, Block, At, ImageOf;
    WithinOwner(doc, r, q, k, n);
    WithinOwner(doc, r, q, k, n + 1);
    Further(doc, r, q + [k], n);
    var kids := Block(Part(doc, r), q + [k])[n].kids;
    WithinOwner(doc, r, q + [k], n, 0);
    WithinOwner(doc, r, q + [k], n, |kids|);
    AtOrdered(doc, r, q, 0, k);
    AtOrdered(doc, r, q, k + 1, |Block(Part(doc, r), q)|);
    AtOrdered(doc, r, q + [k] + [n], 0, |kids|);
  }

  lemma {:induction false} ResolvedStep(doc: Doc, r: Region, q: Path, steps: seq<(nat, nat)>, tag: Option<nat>,
                                        last: Option<nat>)
    requires IsBlock(doc, r, q) && steps != []
    ensures var block, n := Block(Part(doc, r), q), steps[0].1;
            var k := First(block, HasTag(steps[0].0));
            if k < |block| && block[k].entry.kind.Group? && n < |block[k].kids| && block[k].kids[n].entry.kind.Instance? then
              && Opens(doc, r, q, k) && IsBlock(doc, r, q + [k]) && Block(Part(doc, r), q + [k]) == block[k].kids
              && Opens(doc, r, q + [k], n) && IsBlock(doc, r, q + [k] + [n])
              && Resolved(doc, r, q, steps, tag, last)
                 == Resolved(doc, r, q + [k] + [n], steps[1..], tag, Some(At(doc, r, q + [k], n)))
            else Resolved(doc, r, q, steps, tag, last) == None
  {
    var block, n := Block(Part(doc, r), q), steps[0].1;
    var k := First(block, HasTag(steps[0].0));
    if k < |block| && block[k].entry.kind.Group? && n < |block[k].kids| && block[k].kids[n].entry.kind.Instance? {
      Further(doc, r, q, k);
      Further(doc, r, q + [k], n);
    }
  }

  /** Following a step that leads into an earlier sibling ends before the node. */
  lemma {:induction false} WrongTurn(doc: Doc, r: Region, q: Path, j: nat, steps: seq<(nat, nat)>, tag: Option<nat>,
                                     last: Option<nat>)
    requires IsNode(doc, r, q, j) && steps != []
    requires First(Block(Part(doc, r), q), HasTag(steps[0].0)) < j
    ensures var i := Resolved(doc, r, q, steps, tag, last); i == None || i.value < At(doc, r, q, j)
  {
    hide Part, At, ImageOf, Resolved;
    var block, n := Block(Part(doc, r), q), steps[0].1;
    var k := First(block, HasTag(steps[0].0));
    ResolvedStep(doc, r, q, steps, tag, last);
    if block[k].entry.kind.Group? && n < |block[k].kids| && block[k].kids[n].entry.kind.Instance? {
      InsideInstance(doc, r, q, k, n);
      ResolvedInside(doc, r, q + [k] + [n], steps[1..], tag, Some(At(doc, r, q + [k], n)));
      AtOrdered(doc, r, q, k + 1, j);
    }
  }

  /** A node that is not a gap or an instance is found by its tag, or one before it is. */
  lemma {:induction false} TagFound(block: seq<Node>, k: nat)
    requires k < |block| && !block[k].entry.kind.Gap? && !block[k].entry.kind.Instance?
    ensures First(block, HasTag(block[k].entry.tag)) <= k
  {
    assert HasTag(block[k].entry.tag)(block[k].entry.tag, block[k].entry.kind);
  }

  /** The steps of a node's address from a block on. */
  function StepsTo(doc: Doc, r: Region, q: Path, s: Path, k: nat): seq<(nat, nat)>
    requires IsNode(doc, r, q + s, k)
  {
    if Block(Part(doc, r), q + s)[k].entry.kind.Instance? then Steps(doc, r, q, s + [k]) else Steps(doc, r, q, s)
  }

  function TagOf(n: Node): Option<nat> {
    if n.entry.kind.Instance? then None else Some(n.entry.tag)
  }

  /** The first node on the way down from a region or an instance is a group, and the next an instance. */
  lemma {:induction false} FirstTurn(doc: Doc, r: Region, q: Path, s: Path, k: nat)
    requires WellFormed(doc) && IsNode(doc, r, q + s, k) && |q| % 2 == 0 && s != []
    ensures Opens(doc, r, q, s[0]) && Block(Part(doc, r), q)[s[0]].entry.kind.Group?
    ensures IsBlock(doc, r, q + [s[0]]) && Block(Part(doc, r), q + [s[0]]) == Block(Part(doc, r), q)[s[0]].kids
  {
    WithinWay(doc, r, q, s, k);
    BlockKinds(doc, r, q, s[0]);
    Further(doc, r, q, s[0]);
  }

  lemma {:induction false} SecondTurn(doc: Doc, r: Region, q: Path, s: Path, k: nat)
    requires WellFormed(doc) && IsNode(doc, r, q + s, k) && |q| % 2 == 0 && |s| > 1
    ensures IsBlock(doc, r, q + [s[0]]) && Opens(doc, r, q + [s[0]], s[1])
    ensures Block(Part(doc, r), q + [s[0]])[s[1]].entry.kind.Instance?
    ensures IsBlock(doc, r, q + [s[0]] + [s[1]]) && q + s == q + [s[0]] + [s[1]] + s[2..]
  {
    hide *;
    Regrouped(q, s);
    var q1 := q + [s[0]];
    assert |q1| == |q| + 1;
    TurnAt(doc, r, q1, s[1], s[2..], k);
  }

  lemma {:induction false} TurnAt(doc: Doc, r: Region, q: Path, j: nat, s: Path, k: nat)
    requires WellFormed(doc) && IsNode(doc, r, q + [j] + s, k) && |q| % 2 == 1
    ensures Opens(doc, r, q, j) && Block(Part(doc, r), q)[j].entry.kind.Instance? && IsBlock(doc, r, q + [j])
  {
    WithinNode(doc, r, q, j, s, k);
    BlockKinds(doc, r, q, j);
    Further(doc, r, q, j);
  }

  lemma {:induction false} StepsCons(doc: Doc, r: Region, q: Path, s: Path)
    requires |s| >= 2 && IsNode(doc, r, q, s[0])
    ensures Steps(doc, r, q, s)
            == [(Block(Part(doc, r), q)[s[0]].entry.tag, s[1])] + Steps(doc, r, q + [s[0]] + [s[1]], s[2..])
  {
  }

  lemma {:induction false} NoSteps(doc: Doc, r: Region, q: Path, s: Path)
    requires |s| < 2
    ensures Steps(doc, r, q, s) == []
  {
  }

  /** An address's last step, into an instance. */
  lemma {:induction false} StepsLast(doc: Doc, r: Region, q: Path, s: Path, k: nat)
    requires WellFormed(doc) && IsNode(doc, r, q + s, k) && |q| % 2 == 0 && |s| == 1
    ensures IsNode(doc, r, q, s[0]) && Block(Part(doc, r), q + s)[k].entry.kind.Instance? && q + s == q + [s[0]]
    ensures StepsTo(doc, r, q, s, k) == [(Block(Part(doc, r), q)[s[0]].entry.tag, k)]
  {
    hide WellFormed, Part, Block, Steps;
    FirstTurn(doc, r, q, s, k);
    BlockKinds(doc, r, q + s, k);
    StepsCons(doc, r, q, s + [k]);
    assert (s + [k])[2..] == [];
    NoSteps(doc, r, q + [s[0]] + [k], (s + [k])[2..]);
  }

  lemma {:induction false} StepsMore(doc: Doc, r: Region, q: Path, s: Path, k: nat)
    requires WellFormed(doc) && IsNode(doc, r, q + s, k) && |q| % 2 == 0 && |s| > 1
    ensures IsNode(doc, r, q, s[0]) && q + s == q + [s[0]] + [s[1]] + s[2..]
    ensures StepsTo(doc, r, q, s, k)
            == [(Block(Part(doc, r), q)[s[0]].entry.tag, s[1])] + StepsTo(doc, r, q + [s[0]] + [s[1]], s[2..], k)
  {
    hide WellFormed, Part, Block, Steps;
    FirstTurn(doc, r, q, s, k);
    Regrouped(q, s);
    StepsCons(doc, r, q, s);
    StepsCons(doc, r, q, s + [k]);
    assert (s + [k])[2..] == s[2..] + [k];
  }

  lemma {:induction false} ResolvesFrom(doc: Doc, r: Region, q: Path, s: Path, k: nat, last: Option<nat>)
    requires WellFormed(doc) && IsNode(doc, r, q + s, k) && |q| % 2 == 0 && IsBlock(doc, r, q)
    requires !Block(Part(doc, r), q + s)[k].entry.kind.Gap?
    ensures Resolved(doc, r, q, StepsTo(doc, r, q, s, k), TagOf(Block(Part(doc, r), q + s)[k]), last)
            == Some(At(doc, r, q + s, k))
            <==> FirstOnTheWay(doc, r, q, s, k)
    decreases |s|
  {
    hide Part, At, ImageOf, WellFormed, Steps, Resolved, StepsTo;
    if s == [] {
      assert q + s == q;
      ResolvesHere(doc, r, q, k, last);
      StepsHere(doc, r, q, s, k);
    } else {
      FirstTurn(doc, r, q, s, k);
      if |s| == 1 {
        StepsLast(doc, r, q, s, k);
        ResolvesInstance(doc, r, q, s[0], k, last);
      } else {
        SecondTurn(doc, r, q, s, k);
        StepsMore(doc, r, q, s, k);
        ResolvesFrom(doc, r, q + [s[0]] + [s[1]], s[2..], k, Some(At(doc, r, q + [s[0]], s[1])));
        ResolvesDeeper(doc, r, q, s, k, last);
      }
    }
  }

  lemma {:induction false} StepsHere(doc: Doc, r: Region, q: Path, s: Path, k: nat)
    requires WellFormed(doc) && IsNode(doc, r, q + s, k) && |q| % 2 == 0 && s == []
    ensures StepsTo(doc, r, q, s, k) == []
  {
    hide WellFormed, Part, Block;
    assert q + s == q;
    BlockKinds(doc, r, q, k);
  }

  lemma {:induction false} ResolvesInstance(doc: Doc, r: Region, q: Path, j: nat, k: nat, last: Option<nat>)
    requires WellFormed(doc) && |q| % 2 == 0 && Opens(doc, r, q, j) && Block(Part(doc, r), q)[j].entry.kind.Group?
    requires IsNode(doc, r, q + [j], k) && Block(Part(doc, r), q + [j]) == Block(Part(doc, r), q)[j].kids
    requires Block(Part(doc, r), q + [j])[k].entry.kind.Instance?
    ensures var t := Block(Part(doc, r), q)[j].entry.tag;
            Resolved(doc, r, q, [(t, k)], None, last) == Some(At(doc, r, q + [j], k))
            <==> First(Block(Part(doc, r), q), HasTag(t)) == j
  {
    hide Part, At, ImageOf, WellFormed;
    var block := Block(Part(doc, r), q);
    var t := block[j].entry.tag;
    TagFound(block, j);
    if First(block, HasTag(t)) < j {
      WrongTurn(doc, r, q, j, [(t, k)], None, last);
      WithinOwner(doc, r, q, j, k);
    } else {
      ResolvedStep(doc, r, q, [(t, k)], None, last);
    }
  }

  lemma {:induction false} ResolvesDeeper(doc: Doc, r: Region, q: Path, s: Path, k: nat, last: Option<nat>)
    requires WellFormed(doc) && IsNode(doc, r, q + s, k) && |q| % 2 == 0 && |s| > 1 && IsBlock(doc, r, q)
    requires Opens(doc, r, q, s[0]) && Block(Part(doc, r), q)[s[0]].entry.kind.Group?
    requires IsBlock(doc, r, q + [s[0]]) && Block(Part(doc, r), q + [s[0]]) == Block(Part(doc, r), q)[s[0]].kids
    requires Opens(doc, r, q + [s[0]], s[1]) && Block(Part(doc, r), q + [s[0]])[s[1]].entry.kind.Instance?
    requires IsBlock(doc, r, q + [s[0]] + [s[1]]) && q + s == q + [s[0]] + [s[1]] + s[2..]
    ensures var t, steps, tag := Block(Part(doc, r), q)[s[0]].entry.tag, StepsTo(doc, r, q, s, k), TagOf(Block(Part(doc, r), q + s)[k]);
            Resolved(doc, r, q, steps, tag, last) == Some(At(doc, r, q + s, k))
            <==> && First(Block(Part(doc, r), q), HasTag(t)) == s[0]
                 && Resolved(doc, r, q + [s[0]] + [s[1]], StepsTo(doc, r, q + [s[0]] + [s[1]], s[2..], k), tag,
                             Some(At(doc, r, q + [s[0]], s[1])))
                    == Some(At(doc, r, q + s, k))
  {
    hide Part, At, ImageOf, WellFormed, Resolved, StepsTo;
    StepsMore(doc, r, q, s, k);
    var block, steps := Block(Part(doc, r), q), StepsTo(doc, r, q, s, k);
    var tag := TagOf(Block(Part(doc, r), q + s)[k]);
    TagFound(block, s[0]);
    ResolvedStep(doc, r, q, steps, tag, last);
    if First(block, HasTag(block[s[0]].entry.tag)) < s[0] {
      WrongTurn(doc, r, q, s[0], steps, tag, last);
      assert q + s == q + [s[0]] + s[1..];
      WithinNode(doc, r, q, s[0], s[1..], k);
    }
  }

  lemma {:induction false} ResolvesHere(doc: Doc, r: Region, q: Path, k: nat, last: Option<nat>)
    requires WellFormed(doc) && IsNode(doc, r, q, k) && |q| % 2 == 0 && !Block(Part(doc, r), q)[k].entry.kind.Gap?
    ensures !Block(Part(doc, r), q)[k].entry.kind.Instance?
    ensures var t := Block(Part(doc, r), q)[k].entry.tag;
            Resolved(doc, r, q, [], Some(t), last) == Some(At(doc, r, q, k)) <==> First(Block(Part(doc, r), q), HasTag(t)) == k
    ensures Steps(doc, r, q, []) == []
  {
    hide Part, At, ImageOf, WellFormed;
    var block := Block(Part(doc, r), q);
    BlockKinds(doc, r, q, k);
    TagFound(block, k);
    AtOrdered(doc, r, q, First(block, HasTag(block[k].entry.tag)), k);
  }

  /**
   * An address leads back: resolving a node's address, at any depth, gives its entry exactly when
   * every group on the way is the first in its block with its tag, and so is the node.
   */
  lemma {:induction false} AddressLeadsBack(doc: Doc, r: Region, p: Path, k: nat)
    requires WellFormed(doc) && IsNode(doc, r, p, k) && !Block(Part(doc, r), p)[k].entry.kind.Gap?
    ensures IsBlock(doc, r, []) && [] + p == p
    ensures var a := AddressOf(doc, r, p, k);
            Resolved(doc, r, [], a.steps, a.tag, None) == Some(At(doc, r, p, k)) <==> FirstOnTheWay(doc, r, [], p, k)
  {
    assert [] + p == p;
    ResolvesFrom(doc, r, [], p, k, None);
  }

  /** No block of the region has a tag twice. */
  ghost predicate UniqueTags(doc: Doc, r: Region) {
    forall q, t :: IsBlock(doc, r, q) && |q| % 2 == 0 ==> AtMostOnce(Block(Part(doc, r), q), t)
  }

  lemma {:induction false} OnceIsFirst(block: seq<Node>, k: nat)
    requires k < |block| && !block[k].entry.kind.Gap? && !block[k].entry.kind.Instance?
    requires AtMostOnce(block, block[k].entry.tag)
    ensures First(block, HasTag(block[k].entry.tag)) == k
  {
    var f := HasTag(block[k].entry.tag);
    TagFound(block, k);
    assert Passes(f, block[k]) && Passes(f, block[First(block, f)]);
  }

  /** With tags unique per block, every address leads back. */
  lemma {:induction false} UniqueMeansFirst(doc: Doc, r: Region, q: Path, s: Path, k: nat)
    requires WellFormed(doc) && UniqueTags(doc, r) && IsNode(doc, r, q + s, k) && |q| % 2 == 0
    requires !Block(Part(doc, r), q + s)[k].entry.kind.Gap?
    ensures FirstOnTheWay(doc, r, q, s, k)
    decreases |s|
  {
    hide WellFormed, Part, Block, First, HasTag;
    if s == [] {
      assert q + s == q;
      BlockKinds(doc, r, q, k);
      assert AtMostOnce(Block(Part(doc, r), q), Block(Part(doc, r), q)[k].entry.tag);
      OnceIsFirst(Block(Part(doc, r), q), k);
    } else {
      FirstTurn(doc, r, q, s, k);
      assert AtMostOnce(Block(Part(doc, r), q), Block(Part(doc, r), q)[s[0]].entry.tag);
      OnceIsFirst(Block(Part(doc, r), q), s[0]);
      if |s| > 1 {
        Regrouped(q, s);
        UniqueMeansFirst(doc, r, q + [s[0]] + [s[1]], s[2..], k);
      }
    }
  }

  // ---------------------------------------------------------------------
  // Moving about
  // ---------------------------------------------------------------------

  /** The region an index is in. */
  function RegionAt(im: Image, idx: nat): Region {
    if idx < im.bodyStart then Header else if idx < im.trailerStart then Body else Trailer
  }

  lemma {:induction false} RegionOfNode(doc: Doc, r: Region, p: Path, k: nat)
    requires IsNode(doc, r, p, k)
    ensures RegionAt(ImageOf(doc), At(doc, r, p, k)) == r
    ensures Start(doc, r) == At(doc, r, [], 0)
  {
    hide Flat;
    var ns := Part(doc, r);
    assert ns[..|ns|] == ns;
    if p == [] {
      AtOrdered(doc, r, [], k, |ns|);
      AtOrdered(doc, r, [], 0, k);
    } else {
      assert p == [] + [p[0]] + p[1..];
      WithinNode(doc, r, [], p[0], p[1..], k);
      AtOrdered(doc, r, [], 0, p[0]);
      AtOrdered(doc, r, [], p[0] + 1, |ns|);
    }
  }

  /** The owner's entry, or none at the top of a region. */
  method Up(msg: Message, idx: nat, ghost r: Region, ghost p: Path, ghost k: nat) returns (up: Option<nat>)
    requires msg.Valid() && WellFormed(msg.doc) && IsNode(msg.doc, r, p, k) && idx == At(msg.doc, r, p, k)
    ensures up == if p == [] then None else Some(OwnerIndex(msg.doc, r, p))
  {
    hide WellFormed, Part, Block, At, ImageOf, Tidy, OwnerIndex;
    ghost var doc := msg.doc;
    EntryAt(doc, r, p, k);
    RegionOfNode(doc, r, p, k);
    AllLeafyDown(doc, r, p, k);
    assert [] + p == p;
    WalkDown(doc, r, [], p, k, None);
    RegionRange(doc, r);
    var region := RegionAt(msg.Im(), idx);
    var start, end, depth := msg.OwnerRange(InRegion(region));
    up := None;
    var i := start;
    while i < idx
      invariant Enclosing(msg.tape, i, idx, up) == Enclosing(msg.tape, start, idx, None)
      decreases idx - i
    {
      var next := i + msg.tape[i].Span();
      if next > idx {
        up := Some(i);
        i := i + 1;
      } else {
        i := next;
      }
    }
  }

  /** An instance's group, by its tag, and which of the group's instances it is. */
  method StepInto(msg: Message, idx: nat, ghost r: Region, ghost p: Path, ghost k: nat) returns (step: (nat, nat))
    requires msg.Valid() && WellFormed(msg.doc) && IsNode(msg.doc, r, p, k) && idx == At(msg.doc, r, p, k)
    requires Block(Part(msg.doc, r), p)[k].entry.kind.Instance?
    ensures p != [] && step == (Owner(Part(msg.doc, r), p).entry.tag, k)
  {
    hide WellFormed, Part, Block, At, ImageOf, Tidy, OwnerIndex, Owner, LeafyAll;
    BlockKinds(msg.doc, r, p, k);
    GroupAround(msg.doc, r, p);
    var group := Up(msg, idx, r, p, k);
    var n := CountBefore(msg.tape, group.value + 1, idx, msg.doc, r, p, k);
    step := (msg.tape[group.value].tag, n);
  }

  lemma {:induction false} GroupAround(doc: Doc, r: Region, p: Path)
    requires IsBlock(doc, r, p) && p != []
    ensures var g := OwnerIndex(doc, r, p);
            && g + 1 == At(doc, r, p, 0) && g < |ImageOf(doc).tape|
            && ImageOf(doc).tape[g].tag == Owner(Part(doc, r), p).entry.tag
  {
    hide Part, Block, At, ImageOf, Head, Owner;
    Out(doc, r, p);
    var q, j := p[..|p| - 1], p[|p| - 1];
    EntryAt(doc, r, q, j);
    HeadTag(Block(Part(doc, r), q)[j], Depth(doc, r, q));
    Further(doc, r, q, j);
  }

  /** How many siblings come before an entry of their block. */
  method CountBefore(tape: seq<Entry>, first: nat, idx: nat, ghost doc: Doc, ghost r: Region, ghost p: Path, ghost k: nat)
    returns (n: nat)
    requires tape == ImageOf(doc).tape && IsNode(doc, r, p, k) && LeafyAll(doc, r, p)
    requires first == At(doc, r, p, 0) && idx == At(doc, r, p, k)
    ensures n == k
  {
    hide Part, Block, At, ImageOf, Head;
    var i := first;
    n := 0;
    while i < idx
      invariant n <= k && i == At(doc, r, p, n)
      decreases k - n
    {
      AtOrdered(doc, r, p, n, k);
      EntryAt(doc, r, p, n);
      SpanIsSize(Block(Part(doc, r), p)[n], Depth(doc, r, p));
      i := i + tape[i].Span();
      n := n + 1;
    }
    AtOrdered(doc, r, p, n, k);
  }

  // ---------------------------------------------------------------------
  // Addresses, taken and followed
  // ---------------------------------------------------------------------

  /** Another step, at the end. */
  lemma {:induction false} StepsSnoc(doc: Doc, r: Region, q: Path, s: Path, g: nat, n: nat)
    requires IsNode(doc, r, q + s, g) && |s| % 2 == 0 && IsBlock(doc, r, q)
    ensures Steps(doc, r, q, s + [g] + [n]) == Steps(doc, r, q, s) + [(Block(Part(doc, r), q + s)[g].entry.tag, n)]
    decreases |s|
  {
    hide Part, Block, Steps;
    var t := s + [g] + [n];
    if s == [] {
      assert q + s == q && t == [g, n] && t[2..] == [];
      StepsCons(doc, r, q, t);
      NoSteps(doc, r, q + [g] + [n], t[2..]);
      NoSteps(doc, r, q, s);
    } else {
      WithinWay(doc, r, q, s, g);
      Regrouped(q, s);
      assert t[0] == s[0] && t[1] == s[1] && t[2..] == s[2..] + [g] + [n];
      StepsCons(doc, r, q, t);
      StepsCons(doc, r, q, s);
      OnTheWay(doc, r, q + [s[0]] + [s[1]], s[2..]);
      StepsSnoc(doc, r, q + [s[0]] + [s[1]], s[2..], g, n);
    }
  }

  lemma {:induction false} OnTheWay(doc: Doc, r: Region, p: Path, q: Path)
    requires IsBlock(doc, r, p + q)
    ensures IsBlock(doc, r, p)
  {
    SpannedOnTheWay(Part(doc, r), p, q);
  }

  /** The steps not yet taken down when the way up has come to a node. */
  function Left(doc: Doc, r: Region, q: Path, j: nat): seq<(nat, nat)>
    requires IsNode(doc, r, q, j)
  {
    if |q| % 2 == 1 then Steps(doc, r, [], q[..|q| - 1]) else Steps(doc, r, [], q)
  }

  /** One move up: out of an instance to its group, or out of a block to the instance it is in, one step up. */
  lemma {:induction false} LeftStep(doc: Doc, r: Region, q: Path, j: nat)
    requires WellFormed(doc) && IsNode(doc, r, q, j) && q != []
    ensures IsNode(doc, r, q[..|q| - 1], q[|q| - 1])
    ensures Left(doc, r, q, j)
            == if |q| % 2 == 1 then Left(doc, r, q[..|q| - 1], q[|q| - 1])
               else (Out(doc, r, q); var up := q[..|q| - 1];
                     Left(doc, r, up, q[|q| - 1]) + [(Owner(Part(doc, r), up).entry.tag, q[|q| - 1])])
  {
    hide WellFormed, Part, Block, Steps;
    Out(doc, r, q);
    if |q| % 2 == 0 {
      var up, n := q[..|q| - 1], q[|q| - 1];
      Out(doc, r, up);
      var s, g := up[..|up| - 1], up[|up| - 1];
      assert [] + s == s && q == s + [g] + [n];
      assert IsBlock(doc, r, []);
      StepsSnoc(doc, r, [], s, g, n);
    }
  }

  lemma {:induction false} AddressLeft(doc: Doc, r: Region, p: Path, k: nat)
    requires WellFormed(doc) && IsNode(doc, r, p, k)
    ensures var a, n := AddressOf(doc, r, p, k), Block(Part(doc, r), p)[k];
            && a.region == r && a.tag == TagOf(n)
            && (n.entry.kind.Instance? ==> p != [] && a.steps == Left(doc, r, p, k) + [(Owner(Part(doc, r), p).entry.tag, k)])
            && (!n.entry.kind.Instance? ==> a.steps == Left(doc, r, p, k))
  {
    hide WellFormed, Part, Block, Steps;
    BlockKinds(doc, r, p, k);
    if |p| % 2 == 1 {
      Out(doc, r, p);
      var s, g := p[..|p| - 1], p[|p| - 1];
      assert [] + s == s && p + [k] == s + [g] + [k];
      assert IsBlock(doc, r, []);
      StepsSnoc(doc, r, [], s, g, k);
    }
  }

  /** The address of an entry. */
  method PathOf(msg: Message, idx: nat, ghost r: Region, ghost p: Path, ghost k: nat) returns (a: Address)
    requires msg.Valid() && WellFormed(msg.doc) && IsNode(msg.doc, r, p, k) && idx == At(msg.doc, r, p, k)
    requires !Block(Part(msg.doc, r), p)[k].entry.kind.Gap?
    ensures a == AddressOf(msg.doc, r, p, k)
  {
    hide WellFormed, Part, Block, At, ImageOf, Tidy, OwnerIndex, Owner, AddressOf, Left, Head;
    ghost var doc := msg.doc;
    AddressLeft(doc, r, p, k);
    EntryAt(doc, r, p, k);
    HeadKind(Block(Part(doc, r), p)[k], Depth(doc, r, p));
    HeadTag(Block(Part(doc, r), p)[k], Depth(doc, r, p));
    RegionOfNode(doc, r, p, k);
    var tag := if msg.tape[idx].kind.Instance? then None else Some(msg.tape[idx].tag);
    var chain: seq<(nat, nat)> := [];
    if msg.tape[idx].kind.Instance? {
      var step := StepInto(msg, idx, r, p, k);
      chain := [step];
    }
    ghost var steps := AddressOf(doc, r, p, k).steps;
    var all := StepsUp(msg, idx, chain, r, p, k, steps);
    a := Address(RegionAt(msg.Im(), idx), all, tag);
  }

  /** The steps on the way up from an entry, put before those already taken. */
  method StepsUp(msg: Message, idx: nat, taken: seq<(nat, nat)>, ghost r: Region, ghost p: Path, ghost k: nat,
                 ghost steps: seq<(nat, nat)>)
    returns (chain: seq<(nat, nat)>)
    requires msg.Valid() && WellFormed(msg.doc) && IsNode(msg.doc, r, p, k) && idx == At(msg.doc, r, p, k)
    requires steps == Left(msg.doc, r, p, k) + taken
    ensures chain == steps
  {
    hide WellFormed, Part, Block, At, ImageOf, Tidy, Owner, Left;
    ghost var doc, q, j := msg.doc, p, k;
    chain := taken;
    var up := Up(msg, idx, r, q, j);
    while up.Some?
      invariant IsNode(doc, r, q, j) && up == (if q == [] then None else Some(OwnerIndex(doc, r, q)))
      invariant steps == Left(doc, r, q, j) + chain
      decreases |q|
    {
      LeftStep(doc, r, q, j);
      UpKind(doc, r, q, j);
      q, j := q[..|q| - 1], q[|q| - 1];
      var c := up.value;
      if msg.tape[c].kind.Instance? {
        var step := StepInto(msg, c, r, q, j);
        chain := [step] + chain;
      }
      up := Up(msg, c, r, q, j);
    }
    NothingLeft(doc, r, q, j);
  }

  lemma {:induction false} NothingLeft(doc: Doc, r: Region, q: Path, j: nat)
    requires IsNode(doc, r, q, j) && q == []
    ensures Left(doc, r, q, j) == []
  {
  }

  lemma {:induction false} UpKind(doc: Doc, r: Region, q: Path, j: nat)
    requires WellFormed(doc) && IsNode(doc, r, q, j) && q != []
    ensures IsNode(doc, r, q[..|q| - 1], q[|q| - 1])
    ensures OwnerIndex(doc, r, q) == At(doc, r, q[..|q| - 1], q[|q| - 1]) < |ImageOf(doc).tape|
    ensures ImageOf(doc).tape[OwnerIndex(doc, r, q)].kind.Instance? <==> |q| % 2 == 0
    ensures Block(Part(doc, r), q[..|q| - 1])[q[|q| - 1]].entry.kind.Instance? <==> |q| % 2 == 0
  {
    hide WellFormed, Part, Block, At, ImageOf, Head;
    Out(doc, r, q);
    var up, n := q[..|q| - 1], q[|q| - 1];
    BlockKinds(doc, r, up, n);
    EntryAt(doc, r, up, n);
    HeadKind(Block(Part(doc, r), up)[n], Depth(doc, r, up));
  }

  /** A group's `n`th instance, if it has so many. */
  method NthInstance(tape: seq<Entry>, g: nat, n: nat, ghost doc: Doc, ghost r: Region, ghost q: Path, ghost k: nat)
    returns (at: Option<nat>)
    requires tape == ImageOf(doc).tape && IsGroupAt(doc, r, q, k) && g == At(doc, r, q, k)
    requires AllInstances(Block(Part(doc, r), q)[k].kids)
    ensures IsBlock(doc, r, q + [k]) && Block(Part(doc, r), q + [k]) == Block(Part(doc, r), q)[k].kids
    ensures at == if n < |Block(Part(doc, r), q)[k].kids| then Some(At(doc, r, q + [k], n)) else None
  {
    hide Part, Block, At, ImageOf;
    GroupEntryAt(doc, r, q, k);
    KidsEnd(doc, r, q, k);
    ghost var kids := Block(Part(doc, r), q)[k].kids;
    var i, m, end := g + 1, 0, g + tape[g].Span();
    while i < end
      invariant m <= |kids| && m <= n && i == At(doc, r, q + [k], m)
      decreases |kids| - m
    {
      if m < |kids| {
        KidsAt(doc, r, q, k, m);
      }
      if m == n {
        return Some(i);
      }
      i := i + tape[i].Span();
      m := m + 1;
    }
    AtOrdered(doc, r, q + [k], m, |kids|);
    return None;
  }

  /** A region or an instance, as a search takes it. */
  ghost predicate Spans(doc: Doc, r: Region, q: Path, range: (nat, nat, nat)) {
    && IsBlock(doc, r, q) && |q| % 2 == 0
    && range == (At(doc, r, q, 0), At(doc, r, q, |Block(Part(doc, r), q)|), Depth(doc, r, q))
  }

  lemma {:induction false} WholeRegion(doc: Doc, r: Region)
    ensures Spans(doc, r, [], Range(ImageOf(doc), InRegion(r)))
  {
    RegionRange(doc, r);
  }

  /** Look a tag up in a block. */
  method FindTag(msg: Message, range: (nat, nat, nat), tag: nat, ghost r: Region, ghost q: Path) returns (at: Option<nat>)
    requires msg.Valid() && WellFormed(msg.doc) && Spans(msg.doc, r, q, range)
    ensures var block := Block(Part(msg.doc, r), q);
            var k := First(block, HasTag(tag));
            at == if k < |block| then Some(At(msg.doc, r, q, k)) else None
  {
    hide WellFormed, Part, Block, At, ImageOf, Tidy, First, HasTag;
    BlockLeafy(msg.doc, r, q);
    FoundFirst(msg.doc, r, q, tag);
    at := msg.FindIn(range.0, range.1, range.2, tag, None);
  }

  lemma {:induction false} BlockLeafy(doc: Doc, r: Region, q: Path)
    requires WellFormed(doc) && IsBlock(doc, r, q)
    ensures AllLeafy(Block(Part(doc, r), q))
  {
    hide WellFormed;
    if Block(Part(doc, r), q) != [] {
      BlockKinds(doc, r, q, 0);
    }
  }

  /** Go into an instance of a group of a block, if they are there. */
  method Enter(msg: Message, range: (nat, nat, nat), step: (nat, nat), ghost r: Region, ghost q: Path)
    returns (at: Option<nat>)
    requires msg.Valid() && WellFormed(msg.doc) && Spans(msg.doc, r, q, range)
    ensures var block := Block(Part(msg.doc, r), q);
            var k := First(block, HasTag(step.0));
            if k < |block| && block[k].entry.kind.Group? && step.1 < |block[k].kids| then
              && IsBlock(msg.doc, r, q + [k]) && Block(Part(msg.doc, r), q + [k]) == block[k].kids
              && at == Some(At(msg.doc, r, q + [k], step.1)) && at.value < |msg.tape|
              && Opens(msg.doc, r, q + [k], step.1) && block[k].kids[step.1].entry.kind.Instance?
              && Spans(msg.doc, r, q + [k] + [step.1],
                       (at.value + 1, at.value + msg.tape[at.value].Span(), msg.tape[at.value].depth))
            else at == None
  {
    hide WellFormed, Part, Block, At, ImageOf, Tidy, First, HasTag, Head;
    ghost var doc, block := msg.doc, Block(Part(msg.doc, r), q);
    ghost var k := First(block, HasTag(step.0));
    var g := FindTag(msg, range, step.0, r, q);
    if g.None? {
      return None;
    }
    EntryAt(doc, r, q, k);
    HeadKind(block[k], Depth(doc, r, q));
    if !msg.tape[g.value].kind.Group? {
      return None;
    }
    GroupInstances(doc, r, q, k);
    at := NthInstance(msg.tape, g.value, step.1, doc, r, q, k);
    if at.Some? {
      InstanceSpans(doc, r, q, k, step.1);
    }
  }

  lemma {:induction false} GroupInstances(doc: Doc, r: Region, q: Path, k: nat)
    requires WellFormed(doc) && IsGroupAt(doc, r, q, k) && |q| % 2 == 0
    ensures AllInstances(Block(Part(doc, r), q)[k].kids)
  {
    hide WellFormed;
    Further(doc, r, q, k);
    forall n | 0 <= n < |Block(Part(doc, r), q)[k].kids|
      ensures Block(Part(doc, r), q)[k].kids[n].entry.kind.Instance?
    {
      BlockKinds(doc, r, q + [k], n);
    }
  }

  lemma {:induction false} InstanceSpans(doc: Doc, r: Region, q: Path, k: nat, n: nat)
    requires WellFormed(doc) && IsGroupAt(doc, r, q, k) && |q| % 2 == 0 && n < |Block(Part(doc, r), q)[k].kids|
    requires AllInstances(Block(Part(doc, r), q)[k].kids)
    requires IsBlock(doc, r, q + [k]) && Block(Part(doc, r), q + [k]) == Block(Part(doc, r), q)[k].kids
    ensures var at := At(doc, r, q + [k], n);
            && at < |ImageOf(doc).tape| && Opens(doc, r, q + [k], n)
            && Spans(doc, r, q + [k] + [n], (at + 1, at + ImageOf(doc).tape[at].Span(), ImageOf(doc).tape[at].depth))
  {
    hide WellFormed, Part, Block, At, ImageOf, Head;
    Further(doc, r, q + [k], n);
    ChildrenEnd(doc, r, q + [k], n);
    EntryAt(doc, r, q + [k], n);
    InstanceDepth(Block(Part(doc, r), q + [k])[n], Depth(doc, r, q + [k]));
  }

  lemma {:induction false} InstanceDepth(n: Node, d: nat)
    requires n.entry.kind.Instance?
    ensures Head(n, d).depth == d == KidDepth(n, d)
  {
  }

  /** Follow an address; nothing if it no longer leads anywhere. */
  method Resolve(msg: Message, a: Address) returns (at: Option<nat>)
    requires msg.Valid() && WellFormed(msg.doc)
    ensures IsBlock(msg.doc, a.region, []) && at == Resolved(msg.doc, a.region, [], a.steps, a.tag, None)
  {
    hide WellFormed, Part, Block, At, ImageOf, Tidy, Resolved, First, HasTag, Range;
    ghost var doc, r, q: Path := msg.doc, a.region, [];
    WholeRegion(doc, r);
    var start: nat, end: nat, depth: nat := msg.OwnerRange(InRegion(a.region));
    at := None;
    var i := 0;
    assert a.steps[0..] == a.steps;
    while i < |a.steps|
      invariant i <= |a.steps| && Spans(doc, r, q, (start, end, depth)) && IsBlock(doc, r, [])
      invariant Resolved(doc, r, q, a.steps[i..], a.tag, at) == Resolved(doc, r, [], a.steps, a.tag, None)
    {
      assert a.steps[i..][0] == a.steps[i] && a.steps[i..][1..] == a.steps[i + 1..];
      ResolvedStep(doc, r, q, a.steps[i..], a.tag, at);
      ghost var k := First(Block(Part(doc, r), q), HasTag(a.steps[i].0));
      at := Enter(msg, (start, end, depth), a.steps[i], r, q);
      if at.None? {
        return;
      }
      start, end, depth := at.value + 1, at.value + msg.tape[at.value].Span(), msg.tape[at.value].depth;
      q := q + [k] + [a.steps[i].1];
      i := i + 1;
    }
    assert a.steps[i..] == [];
    ResolvedEnd(doc, r, q, a.tag, at);
    if a.tag.Some? {
      at := FindTag(msg, (start, end, depth), a.tag.value, r, q);
    }
  }

  lemma {:induction false} ResolvedEnd(doc: Doc, r: Region, q: Path, tag: Option<nat>, last: Option<nat>)
    requires IsBlock(doc, r, q)
    ensures var block := Block(Part(doc, r), q);
            Resolved(doc, r, q, [], tag, last)
            == if tag.None? then last
               else if First(block, HasTag(tag.value)) < |block| then Some(At(doc, r, q, First(block, HasTag(tag.value)))) else None
  {
  }
}
