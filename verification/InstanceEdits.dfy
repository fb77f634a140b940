/**
 * What becomes of a group's instances (message/edit.rs:807-896), and of everything that is not edited.
 */
module InstanceEdits {
  import opened Tape
  import opened Document
  import opened Editing
  import opened Lookup
  import opened Messages
  import opened Groups
  import opened Shape
  import opened Pruning

  /** The block with the group at `k` holding other instances. */
  predicate Regrouped(doc: Doc, doc': Doc, r: Region, p: Path, k: nat, kids: seq<Node>) {
    && IsBlock(doc, r, p) && IsBlock(doc', r, p) && k < |Block(Part(doc, r), p)|
    && Block(Part(doc', r), p) == Block(Part(doc, r), p)[k := Block(Part(doc, r), p)[k].(kids := kids)]
  }

  /** The block without its `k`th node. */
  predicate Ungrouped(doc: Doc, doc': Doc, r: Region, p: Path, k: nat) {
    && IsBlock(doc, r, p) && IsBlock(doc', r, p) && k < |Block(Part(doc, r), p)|
    && Block(Part(doc', r), p) == Block(Part(doc, r), p)[..k] + Block(Part(doc, r), p)[k + 1..]
  }

  lemma {:induction false} InstancesExchanged(doc: Doc, r: Region, p: Path, k: nat, i: nat, j: nat, cs: seq<Node>)
    requires IsGroupAt(doc, r, p, k) && i <= j <= |Block(Part(doc, r), p)[k].kids|
    ensures IsBlock(doc, r, p + [k]) && Block(Part(doc, r), p + [k]) == Block(Part(doc, r), p)[k].kids
    ensures Regrouped(doc, Edited(doc, r, p + [k], i, j, cs), r, p, k, Exchanged(Block(Part(doc, r), p)[k].kids, i, j, cs))
  {
    hide Part, Block, Around, At, Edited, Depth;
    var block := Block(Part(doc, r), p);
    Further(doc, r, p, k);
    EditedFurther(doc, r, p, k, i, j, cs);
    var n' := block[k].(kids := Exchanged(block[k].kids, i, j, cs));
    EditedStays(doc, r, p, k, k + 1, [n']);
    assert Exchanged(block, k, k + 1, [n']) == block[k := n'];
  }

  lemma {:induction false} GroupTakenOut(doc: Doc, r: Region, p: Path, k: nat)
    requires IsGroupAt(doc, r, p, k)
    ensures Ungrouped(doc, NodeGone(doc, r, p, k), r, p, k)
  {
    hide Part, Block, Edited;
    EditedStays(doc, r, p, k, k + 1, []);
    var block := Block(Part(doc, r), p);
    assert Exchanged(block, k, k + 1, []) == block[..k] + block[k + 1..];
  }

  /** A new instance is empty and goes where it is asked for; the others stay, in order. */
  lemma {:induction false} AddedWhereAsked(doc: Doc, r: Region, p: Path, k: nat, n: nat)
    requires IsGroupAt(doc, r, p, k) && n <= |Block(Part(doc, r), p)[k].kids|
    ensures var kids := Block(Part(doc, r), p)[k].kids;
            Regrouped(doc, InstanceAdded(doc, r, p, k, n), r, p, k, kids[..n] + [Node(INSTANCE, [])] + kids[n..])
  {
    hide Part, Block, Edited, Regrouped;
    InstancesExchanged(doc, r, p, k, n, n, [EMPTY_INSTANCE]);
  }

  /** The instance asked for goes, and the group with its last one. */
  lemma {:induction false} RemovedAsAsked(doc: Doc, r: Region, p: Path, k: nat, n: nat)
    requires IsGroupAt(doc, r, p, k) && n < |Block(Part(doc, r), p)[k].kids|
    ensures var kids, doc' := Block(Part(doc, r), p)[k].kids, InstanceGone(doc, r, p, k, n);
            if |kids| == 1 then Ungrouped(doc, doc', r, p, k)
            else Regrouped(doc, doc', r, p, k, kids[..n] + kids[n + 1..])
  {
    hide Part, Block, Edited, Regrouped, Ungrouped;
    var kids := Block(Part(doc, r), p)[k].kids;
    InstancesExchanged(doc, r, p, k, n, n + 1, []);
    GroupTakenOut(doc, r, p, k);
    assert Exchanged(kids, n, n + 1, []) == kids[..n] + kids[n + 1..];
  }

  /** These indices, in order, and no others. */
  ghost predicate Chosen(idx: seq<nat>, keep: seq<bool>) {
    && (forall i, j :: 0 <= i < j < |idx| ==> idx[i] < idx[j])
    && (forall i :: i in idx <==> 0 <= i < |keep| && keep[i])
  }

  lemma {:induction false} KeptAreChosen(ns: seq<Node>, keep: seq<bool>) returns (idx: seq<nat>)
    requires |keep| == |ns|
    ensures Chosen(idx, keep)
    ensures |Kept(ns, keep)| == |idx| && forall i :: 0 <= i < |idx| ==> idx[i] < |ns| && Kept(ns, keep)[i] == ns[idx[i]]
    decreases |ns|
  {
    if ns == [] {
      idx := [];
    } else {
      var last := |ns| - 1;
      var before := KeptAreChosen(ns[..last], keep[..last]);
      idx := before + if keep[last] then [last] else [];
      ChosenMore(before, keep, idx);
    }
  }

  lemma {:induction false} ChosenMore(before: seq<nat>, keep: seq<bool>, idx: seq<nat>)
    requires keep != [] && Chosen(before, keep[..|keep| - 1])
    requires idx == before + if keep[|keep| - 1] then [|keep| - 1] else []
    ensures Chosen(idx, keep)
  {
    var last := |keep| - 1;
    assert forall i :: 0 <= i < |before| ==> before[i] in before;
    forall i
      ensures i in idx <==> 0 <= i < |keep| && keep[i]
    {
      assert i in before <==> 0 <= i < last && keep[i];
    }
  }

  /** Exactly the instances chosen stay, in order; the group goes if there are none, and nothing changes if all stay. */
  lemma {:induction false} RetainedAsChosen(doc: Doc, r: Region, p: Path, k: nat, keep: seq<bool>) returns (idx: seq<nat>)
    requires IsGroupAt(doc, r, p, k) && |keep| == |Block(Part(doc, r), p)[k].kids|
    ensures Chosen(idx, keep) && forall i :: 0 <= i < |idx| ==> idx[i] < |keep|
    ensures var kids, doc' := Block(Part(doc, r), p)[k].kids, Retained(doc, r, p, k, keep);
            if |idx| == |kids| then doc' == doc
            else if idx == [] then Ungrouped(doc, doc', r, p, k)
            else Regrouped(doc, doc', r, p, k, seq(|idx|, i requires 0 <= i < |idx| => kids[idx[i]]))
  {
    hide Part, Block, Edited, Regrouped, Ungrouped, Kept;
    var kids := Block(Part(doc, r), p)[k].kids;
    idx := KeptAreChosen(kids, keep);
    var kept := Kept(kids, keep);
    InstancesExchanged(doc, r, p, k, 0, |kids|, kept);
    GroupTakenOut(doc, r, p, k);
    assert Exchanged(kids, 0, |kids|, kept) == kept;
    assert kept == seq(|idx|, i requires 0 <= i < |idx| => kids[idx[i]]);
  }

  // ---------------------------------------------------------------------
  // Elsewhere
  // ---------------------------------------------------------------------

  /** Paths that part ways. */
  predicate Apart(p: Path, q: Path)
    decreases p
  {
    p != [] && q != [] && (p[0] != q[0] || Apart(p[1..], q[1..]))
  }

  lemma {:induction false} ApartStays(ns: seq<Node>, p: Path, cs: seq<Node>, q: Path)
    requires ValidPath(ns, p) && ValidPath(ns, q) && Apart(p, q)
    ensures ValidPath(SetBlock(ns, p, cs), q) && Block(SetBlock(ns, p, cs), q) == Block(ns, q)
    decreases p
  {
    if p[0] == q[0] {
      ApartStays(ns[p[0]].kids, p[1..], cs, q[1..]);
    }
  }

  /** An edit of a block leaves every block that is not on the way to it, or inside it, as it was. */
  lemma {:induction false} ElsewhereStays(doc: Doc, r: Region, p: Path, i: nat, j: nat, cs: seq<Node>, r': Region, q: Path)
    requires IsBlock(doc, r, p) && i <= j <= |Block(Part(doc, r), p)|
    requires ValidPath(Part(doc, r'), q) && (r' != r || Apart(p, q))
    ensures var doc' := Edited(doc, r, p, i, j, cs);
            ValidPath(Part(doc', r'), q) && Block(Part(doc', r'), q) == Block(Part(doc, r'), q)
  {
    if r' == r {
      ApartStays(Part(doc, r), p, Exchanged(Block(Part(doc, r), p), i, j, cs), q);
    }
  }
}
