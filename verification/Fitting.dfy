/**
 * What the stack machine builds can be read back (message/parse.rs): while fields come, the trees
 * under construction conform to the dictionary. A group is only left behind by a field that belongs
 * to none of the groups still open in it.
 */
module Fitting {
  import opened Tape
  import opened Document
  import opened Groups
  import opened Parsing
  import opened RoundTrip
  import opened Growth

  // ---------------------------------------------------------------------
  // Nodes put at the end
  // ---------------------------------------------------------------------

  lemma {:induction false} FitSnoc(dict: Dict, ns: seq<Node>, ctx: Context, n: Node)
    requires Fit(dict, ns, ctx) && NodeFit(dict, n, ctx) && ClearBehind(dict, ns, ctx, n.entry.tag)
    ensures Fit(dict, ns + [n], ctx)
  {
    hide NodeFit, Clear;
    if ns == [] {
      assert [n][1..] == [] && ns + [n] == [n];
      assert Fit(dict, [], ctx);
    } else {
      FitSnoc(dict, ns[1..], ctx, n);
      assert (ns + [n])[1..] == ns[1..] + [n];
    }
  }

  /** The nodes of an instance: the first is the delimiter's, the others are members. */
  predicate InstanceFits(dict: Dict, ns: seq<Node>, g: nat) {
    ns != [] ==>
      && ns[0].entry.tag == dict.groups(g).delimiter
      && Members(dict, ns[1..], g)
      && Fit(dict, ns, Within(g))
  }

  /** A node with this tag can come next in the instance, and is not taken for part of the one before. */
  predicate MayFollow(dict: Dict, ns: seq<Node>, g: nat, tag: nat) {
    && ClearBehind(dict, ns, Within(g), tag)
    && (if ns == [] then tag == dict.groups(g).delimiter
        else tag != dict.groups(g).delimiter && tag in dict.groups(g).members)
  }

  lemma {:induction false} InstanceSnoc(dict: Dict, ns: seq<Node>, g: nat, n: Node)
    requires InstanceFits(dict, ns, g) && MayFollow(dict, ns, g, n.entry.tag) && NodeFit(dict, n, Within(g))
    ensures InstanceFits(dict, ns + [n], g)
  {
    hide NodeFit, Clear, Fit;
    if ns == [] {
      assert Fit(dict, [], Within(g)) by { EmptyFits(dict, Within(g)); }
      FitSnoc(dict, [], Within(g), n);
      assert ns + [n] == [] + [n] && (ns + [n])[1..] == [];
    } else {
      FitSnoc(dict, ns, Within(g), n);
      assert (ns + [n])[1..] == ns[1..] + [n];
    }
  }

  lemma {:induction false} EmptyFits(dict: Dict, ctx: Context)
    ensures Fit(dict, [], ctx)
  {
  }

  lemma {:induction false} InstancesSnoc(dict: Dict, ks: seq<Node>, g: nat, ns: seq<Node>)
    requires InstancesFit(dict, ks, g) && ns != [] && InstanceFits(dict, ns, g)
    requires ks != [] ==> ClearBehind(dict, ks[|ks| - 1].kids, Within(g), dict.groups(g).delimiter)
    ensures InstancesFit(dict, ks + [Node(INSTANCE, ns)], g)
  {
    hide Clear, Fit, Members;
    var n := Node(INSTANCE, ns);
    if ks == [] {
      assert ks + [n] == [n] && [n][1..] == [];
    } else {
      InstancesSnoc(dict, ks[1..], g, ns);
      assert (ks + [n])[1..] == ks[1..] + [n];
    }
  }

  // ---------------------------------------------------------------------
  // Trees under construction
  // ---------------------------------------------------------------------

  /** The groups that are open, outermost first. */
  function OpenGroups(stack: seq<Frame>): seq<nat> {
    seq(|stack|, i requires 0 <= i < |stack| => stack[i].group)
  }

  /** Where the group at a level stands. */
  function ContextAt(r: Region, gs: seq<nat>, k: nat): Context
    requires k <= |gs|
  {
    if k == 0 then Top(r == Header) else Within(gs[k - 1])
  }

  /** An open group: its finished instances fit, and so does what there is of the one it is in. */
  predicate LevelFits(dict: Dict, ctx: Context, g: nat, l: Level) {
    && Opened(dict, ctx, l.tag) == Some(g)
    && InstancesFit(dict, l.kids, g)
    && (l.current.Some? ==>
          && InstanceFits(dict, l.current.value, g)
          && (l.kids != [] ==> ClearBehind(dict, l.kids[|l.kids| - 1].kids, Within(g), dict.groups(g).delimiter)))
  }

  /** A node with this tag can come next in the region. */
  predicate RegionMay(dict: Dict, h: seq<Node>, b: seq<Node>, t: seq<Node>, r: Region, tag: nat) {
    && Stays(dict, r, tag)
    && match r
       case Header => ClearBehind(dict, h, Top(true), tag)
       case Body =>
         if b == [] then ClearBehind(dict, h, Top(true), tag) else ClearBehind(dict, b, Top(false), tag)
       case Trailer =>
         if t != [] then ClearBehind(dict, t, Top(false), tag)
         else
           && tag !in dict.headerTags
           && ClearBehind(dict, b, Top(false), tag)
           && (b == [] ==> ClearBehind(dict, h, Top(true), tag))
  }

  /** A node with this tag can come next at the innermost place below the first `k` levels. */
  predicate MayCome(dict: Dict, r: Region, gs: seq<nat>, z: Growing, k: nat, tag: nat)
    requires k <= |gs| && k <= |z.levels|
  {
    if k == 0 then RegionMay(dict, z.h, z.b, z.t, r, tag)
    else
      var current := z.levels[k - 1].current;
      current.Some? && MayFollow(dict, current.value, gs[k - 1], tag)
  }

  predicate LevelGrown(dict: Dict, r: Region, gs: seq<nat>, z: Growing, k: nat)
    requires k < |gs| && k < |z.levels|
  {
    LevelFits(dict, ContextAt(r, gs, k), gs[k], z.levels[k]) && MayCome(dict, r, gs, z, k, z.levels[k].tag)
  }

  /** What is finished conforms, and what is open fits where it stands. */
  predicate Grown(dict: Dict, r: Region, gs: seq<nat>, z: Growing) {
    && |gs| == |z.levels|
    && Conforms(dict, z.h, z.b, z.t)
    && forall k :: 0 <= k < |gs| ==> LevelGrown(dict, r, gs, z, k)
  }

  /** The regions behind this one are empty. */
  predicate Ahead(z: Growing, r: Region) {
    (r == Header ==> z.b == [] && z.t == []) && (r == Body ==> z.t == [])
  }

  /** Something has come at the innermost place: only a header may still be empty. */
  predicate Begun(z: Growing, r: Region) {
    Placeable(z) && (z.levels != [] || r != Header ==> Place(z, r) != [])
  }

  /** The tag is not taken for part of the last node at the innermost place. */
  predicate ClearHere(dict: Dict, r: Region, gs: seq<nat>, z: Growing, tag: nat)
    requires |gs| == |z.levels|
  {
    Begun(z, r) && ClearBehind(dict, Place(z, r), ContextAt(r, gs, |gs|), tag)
  }

  /** No group was just left. */
  predicate Rested(z: Growing, r: Region) {
    Placeable(z) ==> Begun(z, r) && (Place(z, r) != [] ==> Place(z, r)[|Place(z, r)| - 1].kids == [])
  }

  lemma {:induction false} RegionSnoc(dict: Dict, z: Growing, r: Region, n: Node)
    requires Conforms(dict, z.h, z.b, z.t) && RegionMay(dict, z.h, z.b, z.t, r, n.entry.tag) && Ahead(z, r)
    requires NodeFit(dict, n, Top(r == Header)) && z.levels == []
    ensures var z' := Added(z, r, n);
            Conforms(dict, z'.h, z'.b, z'.t)
  {
    hide NodeFit, Clear, Fit;
    FitSnoc(dict, Place(z, r), Top(r == Header), n);
  }

  /** A node put where it may come. */
  lemma {:induction false} AddedGrown(dict: Dict, r: Region, gs: seq<nat>, z: Growing, n: Node)
    requires Grown(dict, r, gs, z) && Ahead(z, r) && MayCome(dict, r, gs, z, |gs|, n.entry.tag)
    requires NodeFit(dict, n, ContextAt(r, gs, |gs|))
    ensures Placeable(z) && Grown(dict, r, gs, Added(z, r, n)) && Place(Added(z, r, n), r) == Place(z, r) + [n]
    ensures Ahead(Added(z, r, n), r) && Begun(Added(z, r, n), r)
  {
    hide NodeFit, Conforms, RegionMay, MayFollow, InstanceFits, InstancesFit, Clear;
    var z' := Added(z, r, n);
    if z.levels == [] {
      RegionSnoc(dict, z, r, n);
    } else {
      var k := |gs| - 1;
      assert LevelGrown(dict, r, gs, z, k);
      InstanceSnoc(dict, z.levels[k].current.value, gs[k], n);
      forall j | 0 <= j < |gs| ensures LevelGrown(dict, r, gs, z', j) {
        assert LevelGrown(dict, r, gs, z, j);
      }
    }
  }

  /** A group without the level it is at. */
  lemma {:induction false} PoppedGrown(dict: Dict, r: Region, gs: seq<nat>, z: Growing)
    requires Grown(dict, r, gs, z) && z.levels != []
    ensures var k := |gs| - 1;
            var z1 := z.(levels := z.levels[..k]);
            Grown(dict, r, gs[..k], z1) && MayCome(dict, r, gs[..k], z1, k, z.levels[k].tag)
  {
    hide LevelFits, RegionMay, MayFollow, Conforms;
    var k := |gs| - 1;
    var z1 := z.(levels := z.levels[..k]);
    assert LevelGrown(dict, r, gs, z, k);
    forall j | 0 <= j < k ensures LevelGrown(dict, r, gs[..k], z1, j) {
      assert LevelGrown(dict, r, gs, z, j);
    }
  }

  /** A finished group fits where it was opened, and what none of it takes is clear of it. */
  lemma {:induction false} FinishFits(dict: Dict, ctx: Context, g: nat, l: Level, tag: nat)
    requires LevelFits(dict, ctx, g, l) && l.current.Some? && l.current.value != []
    ensures NodeFit(dict, Finish(l), ctx)
    ensures Skips(dict, g, tag) && ClearBehind(dict, l.current.value, Within(g), tag) ==> Clear(dict, Finish(l), ctx, tag)
  {
    hide InstanceFits, InstancesFit;
    InstancesSnoc(dict, l.kids, g, l.current.value);
  }

  /** Leaving a group: its node goes where it was opened. */
  lemma {:induction false} ClosedGrown(dict: Dict, r: Region, gs: seq<nat>, z: Growing, tag: nat)
    requires Grown(dict, r, gs, z) && Ahead(z, r) && z.levels != [] && Begun(z, r)
    ensures var k := |gs| - 1;
            var z1 := z.(levels := z.levels[..k]);
            Placeable(z1) && Begun(Added(z1, r, Finish(z.levels[k])), r)
            && Grown(dict, r, gs[..k], Added(z1, r, Finish(z.levels[k])))
    ensures var k := |gs| - 1;
            var z1 := z.(levels := z.levels[..k]);
            ClearHere(dict, r, gs, z, tag) && Skips(dict, gs[k], tag) ==>
              ClearHere(dict, r, gs[..k], Added(z1, r, Finish(z.levels[k])), tag)
  {
    hide LevelFits, MayCome, NodeFit, Clear, Skips;
    var k := |gs| - 1;
    var l, z1 := z.levels[k], z.(levels := z.levels[..k]);
    InnermostFits(dict, r, gs, z);
    FinishFits(dict, ContextAt(r, gs, k), gs[k], l, tag);
    PoppedGrown(dict, r, gs, z);
    assert ContextAt(r, gs[..k], k) == ContextAt(r, gs, k);
    AddedGrown(dict, r, gs[..k], z1, Finish(l));
  }

  lemma {:induction false} InnermostFits(dict: Dict, r: Region, gs: seq<nat>, z: Growing)
    requires Grown(dict, r, gs, z) && z.levels != []
    ensures |gs| == |z.levels| && LevelFits(dict, ContextAt(r, gs, |gs| - 1), gs[|gs| - 1], z.levels[|gs| - 1])
  {
    hide LevelFits, MayCome, Conforms;
    assert LevelGrown(dict, r, gs, z, |gs| - 1);
  }

  /** Another instance of the innermost group, for its delimiter. */
  lemma {:induction false} StartedGrown(dict: Dict, r: Region, gs: seq<nat>, z: Growing)
    requires Grown(dict, r, gs, z) && z.levels != []
    requires Placeable(z) ==> ClearHere(dict, r, gs, z, dict.groups(gs[|gs| - 1]).delimiter)
    requires !Placeable(z) ==> z.levels[|gs| - 1].kids == []
    ensures var k := |gs| - 1;
            var z' := z.(levels := z.levels[..k] + [Ended(z.levels[k]).(current := Some([]))]);
            Grown(dict, r, gs, z') && MayCome(dict, r, gs, z', |gs|, dict.groups(gs[k]).delimiter)
  {
    hide Clear, Conforms, InstancesFit, RegionMay, MayFollow;
    var k := |gs| - 1;
    var l := z.levels[k];
    var l' := Ended(l).(current := Some([]));
    var z' := z.(levels := z.levels[..k] + [l']);
    InnermostFits(dict, r, gs, z);
    if l.current.Some? {
      InstancesSnoc(dict, l.kids, gs[k], l.current.value);
    }
    forall j | 0 <= j < |gs| ensures LevelGrown(dict, r, gs, z', j) {
      assert LevelGrown(dict, r, gs, z, j);
    }
    FirstMay(dict, gs[k]);
  }

  lemma {:induction false} FirstMay(dict: Dict, g: nat)
    ensures MayFollow(dict, [], g, dict.groups(g).delimiter)
  {
  }

  /** A group opens where its field may come. */
  lemma {:induction false} OpenedGrown(dict: Dict, r: Region, gs: seq<nat>, z: Growing, g: nat, l: Level)
    requires Grown(dict, r, gs, z) && MayCome(dict, r, gs, z, |gs|, l.tag)
    requires Opened(dict, ContextAt(r, gs, |gs|), l.tag) == Some(g) && l.kids == [] && l.current.None?
    ensures Grown(dict, r, gs + [g], z.(levels := z.levels + [l]))
  {
    hide Conforms, RegionMay, MayFollow, InstanceFits, Clear;
    var gs', z' := gs + [g], z.(levels := z.levels + [l]);
    forall j | 0 <= j < |gs'| ensures LevelGrown(dict, r, gs', z', j) {
      if j < |gs| {
        assert LevelGrown(dict, r, gs, z, j);
      } else {
        assert InstancesFit(dict, [], g);
      }
    }
  }

  /** Outside groups: the region a field is in is one it may come in. */
  lemma {:induction false} EnteredMay(dict: Dict, m: Machine, z: Growing, tag: nat, m': Machine)
    requires m.stack == [] && z.levels == [] && Ahead(z, m.region) && RegionEntered(dict, m, tag) == Ok(m')
    requires ClearHere(dict, m.region, [], z, tag)
    ensures MayCome(dict, m'.region, [], z, 0, tag) && Ahead(z, m'.region)
  {
    hide Clear, GapSlots;
  }

  lemma {:induction false} EnteredGrown(dict: Dict, r: Region, r': Region, z: Growing)
    requires Grown(dict, r, [], z)
    ensures Grown(dict, r', [], z)
  {
  }

  // ---------------------------------------------------------------------
  // The machine's steps
  // ---------------------------------------------------------------------

  /** The trees the machine has built fit, and no group was just left. */
  predicate GrownFit(dict: Dict, m: Machine, z: Growing) {
    Grown(dict, m.region, OpenGroups(m.stack), z) && Rested(z, m.region)
  }

  /** A field with this tag can be placed. */
  predicate Ready(dict: Dict, m: Machine, z: Growing, tag: nat) {
    var gs := OpenGroups(m.stack);
    Grown(dict, m.region, gs, z) && MayCome(dict, m.region, gs, z, |gs|, tag)
  }

  /** Groups are being left for this tag. */
  predicate Leaving(dict: Dict, m: Machine, z: Growing, tag: nat) {
    var gs := OpenGroups(m.stack);
    && Grown(dict, m.region, gs, z)
    && (Placeable(z) ==> ClearHere(dict, m.region, gs, z, tag))
  }

  lemma {:induction false} RestedLeaves(dict: Dict, m: Machine, z: Growing, tag: nat)
    requires GrownFit(dict, m, z)
    ensures Leaving(dict, m, z, tag)
  {
    hide LevelGrown, Conforms;
    if Placeable(z) && Place(z, m.region) != [] {
      var ns, gs := Place(z, m.region), OpenGroups(m.stack);
      LeafIsClear(dict, ns[|ns| - 1], ContextAt(m.region, gs, |gs|), tag);
    }
  }

  lemma {:induction false} LeafIsClear(dict: Dict, n: Node, ctx: Context, tag: nat)
    requires n.kids == []
    ensures Clear(dict, n, ctx, tag)
  {
  }

  lemma {:induction false} SameHeight(dict: Dict, r: Region, gs: seq<nat>, z: Growing)
    ensures Grown(dict, r, gs, z) ==> |gs| == |z.levels|
  {
  }

  lemma {:induction false} HoldsAhead(m: Machine, z: Growing)
    requires Holds(m, z)
    ensures Ahead(z, m.region) && |z.levels| == |m.stack|
    ensures m.stack != [] ==>
              && (m.Innermost().instance.Some? <==> z.levels[|m.stack| - 1].current.Some?)
              && (z.levels[|m.stack| - 1].current.None? ==> z.levels[|m.stack| - 1].kids == [] && m.Innermost().count != m.Innermost().declared)
  {
    hide DoneTape, LevelsTape;
  }

  /** The innermost group is left for a tag it does not have. */
  lemma {:induction false} ClosedLeaves(dict: Dict, m: Machine, z: Growing, tag: nat, m': Machine, z': Growing)
    requires Holds(m, z) && m.Sound() && m.stack != [] && GroupClosed(m) == Ok(m') && Leaving(dict, m, z, tag)
    requires Skips(dict, m.Innermost().group, tag) && |z.levels| == |m.stack|
    requires Left(z, m.region, z')
    ensures Leaving(dict, m', z', tag) && Placeable(z')
  {
    hide Holds, Grown, ClearHere, Skips;
    HoldsAhead(m, z);
    var gs, k := OpenGroups(m.stack), |z.levels| - 1;
    assert OpenGroups(m'.stack) == gs[..k];
    InnermostOpen(m);
    SameHeight(dict, m.region, gs, z);
    ClearIsBegun(dict, m.region, gs, z, tag);
    ClosedGrown(dict, m.region, gs, z, tag);
  }

  lemma {:induction false} InnermostOpen(m: Machine)
    requires m.stack != []
    ensures OpenGroups(m.stack)[|m.stack| - 1] == m.Innermost().group
    ensures m.Context() == Within(m.Innermost().group)
  {
  }

  lemma {:induction false} ClearIsBegun(dict: Dict, r: Region, gs: seq<nat>, z: Growing, tag: nat)
    requires |gs| == |z.levels| && ClearHere(dict, r, gs, z, tag)
    ensures Begun(z, r)
  {
  }

  /** The delimiter starts an instance, and comes first in it. */
  lemma {:induction false} StartedReady(dict: Dict, m: Machine, z: Growing, m': Machine, z': Growing)
    requires Holds(m, z) && m.Sound() && m.stack != [] && InstanceStarted(m) == Ok(m') && |z.levels| == |m.stack|
    requires Leaving(dict, m, z, dict.groups(m.Innermost().group).delimiter)
    requires var k := |z.levels| - 1;
             z' == z.(levels := z.levels[..k] + [Ended(z.levels[k]).(current := Some([]))])
    ensures Ready(dict, m', z', dict.groups(m.Innermost().group).delimiter)
  {
    hide Holds, Grown, ClearHere, MayCome, InstanceClosed;
    HoldsAhead(m, z);
    var gs := OpenGroups(m.stack);
    assert OpenGroups(m'.stack) == gs;
    InnermostOpen(m);
    SameHeight(dict, m.region, gs, z);
    StartedGrown(dict, m.region, gs, z);
    SameHeight(dict, m.region, gs, z');
  }

  /** A member joins the instance its group is in. */
  lemma {:induction false} MemberReady(dict: Dict, m: Machine, z: Growing, tag: nat)
    requires Leaving(dict, m, z, tag) && m.stack != [] && Placeable(z) && |z.levels| == |m.stack|
    requires tag != dict.groups(m.Innermost().group).delimiter && tag in dict.groups(m.Innermost().group).members
    ensures Ready(dict, m, z, tag)
  {
    hide LevelGrown, Conforms, Clear;
    InnermostOpen(m);
  }

  lemma {:induction false} EnteredReady(dict: Dict, m: Machine, z: Growing, tag: nat, m': Machine)
    requires Holds(m, z) && m.stack == [] && RegionEntered(dict, m, tag) == Ok(m')
    requires Leaving(dict, m, z, tag)
    ensures Ready(dict, m', z, tag)
  {
    hide Holds, Grown, MayCome, RegionEntered, ClearHere;
    HoldsAhead(m, z);
    assert OpenGroups(m.stack) == [] && OpenGroups(m'.stack) == [];
    EnteredMay(dict, m, z, tag, m');
    EnteredGrown(dict, m.region, m'.region, z);
  }

  /** A field, or a group without instances, goes where it may come. */
  lemma {:induction false} LeafFits(dict: Dict, m: Machine, z: Growing, n: Node, m': Machine)
    requires Holds(m, z) && Ready(dict, m, z, n.entry.tag) && m'.stack == m.stack && m'.region == m.region
    requires NodeFit(dict, n, m.Context()) && n.kids == []
    ensures Placeable(z) && GrownFit(dict, m', Added(z, m.region, n))
  {
    hide Holds, Grown, MayCome, Added, NodeFit;
    HoldsAhead(m, z);
    var gs := OpenGroups(m.stack);
    ContextIs(m);
    AddedGrown(dict, m.region, gs, z, n);
  }

  lemma {:induction false} ContextIs(m: Machine)
    ensures m.Context() == ContextAt(m.region, OpenGroups(m.stack), |m.stack|)
  {
  }

  /** A group opens where its field may come. */
  lemma {:induction false} GroupFits(dict: Dict, m: Machine, z: Growing, g: nat, l: Level, m': Machine)
    requires Ready(dict, m, z, l.tag) && Opened(dict, m.Context(), l.tag) == Some(g)
    requires l.kids == [] && l.current.None? && m'.region == m.region && |m'.stack| == |m.stack| + 1
    requires m'.stack[..|m.stack|] == m.stack && m'.Innermost().group == g
    ensures GrownFit(dict, m', z.(levels := z.levels + [l]))
  {
    hide Grown, MayCome;
    var gs := OpenGroups(m.stack);
    ContextIs(m);
    assert OpenGroups(m'.stack) == gs + [g];
    OpenedGrown(dict, m.region, gs, z, g, l);
  }

  /** At the end: every group may be left. */
  predicate Closable(dict: Dict, m: Machine, z: Growing) {
    Grown(dict, m.region, OpenGroups(m.stack), z) && (Placeable(z) ==> Begun(z, m.region))
  }

  lemma {:induction false} RestedCloses(dict: Dict, m: Machine, z: Growing)
    requires GrownFit(dict, m, z)
    ensures Closable(dict, m, z)
  {
    hide Grown, Begun;
  }

  lemma {:induction false} ClosedCloses(dict: Dict, m: Machine, z: Growing, m': Machine, z': Growing)
    requires Holds(m, z) && m.Sound() && m.stack != [] && GroupClosed(m) == Ok(m') && Closable(dict, m, z)
    requires |z.levels| == |m.stack|
    requires Left(z, m.region, z')
    ensures Closable(dict, m', z')
  {
    hide Holds, Grown, ClearHere, Begun;
    HoldsAhead(m, z);
    var gs, k := OpenGroups(m.stack), |z.levels| - 1;
    assert OpenGroups(m'.stack) == gs[..k];
    SameHeight(dict, m.region, gs, z);
    ClosedGrown(dict, m.region, gs, z, 0);
  }

  lemma {:induction false} ClosedConforms(dict: Dict, m: Machine, z: Growing)
    requires Closable(dict, m, z)
    ensures Conforms(dict, z.h, z.b, z.t)
  {
    hide Conforms;
  }
}
