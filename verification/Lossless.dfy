/**
 * Parsing loses nothing (message/parse.rs): whatever fields the stack machine accepts, the tape it
 * ends with lays out trees whose fields are those, in order, and every group has the instances it
 * declared.
 */
module Lossless {
  import opened Tape
  import opened Document
  import opened Groups
  import opened Parsing
  import opened RoundTrip
  import opened Messages
  import opened Shape
  import opened Growth
  import opened Fitting

  // ---------------------------------------------------------------------
  // One field
  // ---------------------------------------------------------------------

  lemma {:induction false} SettledHolds(dict: Dict, m: Machine, z: Growing, tag: nat, m': Machine) returns (z': Growing)
    requires Holds(m, z) && m.Sound() && Settled(dict, m, tag) == Ok(m')
    ensures Holds(m', z') && Placeable(z') && ReadTokens(z') == ReadTokens(z)
    ensures GrowingShaped(z) ==> GrowingShaped(z')
    ensures Leaving(dict, m, z, tag) ==>
              if m'.stack == [] then Leaving(dict, m', z', tag) else Ready(dict, m', z', tag)
    decreases |m.stack|
  {
    hide Holds, ReadTokens, InstanceStarted, GroupClosed, GrowingShaped, Leaving, Ready;
    HoldsSound(m, z);
    if m.stack == [] {
      z' := z;
    } else {
      var def := dict.groups(m.Innermost().group);
      if tag == def.delimiter {
        z' := StartedHolds(m, z, m');
        if Leaving(dict, m, z, tag) {
          StartedReady(dict, m, z, m', z');
        }
      } else if tag in def.members {
        z' := z;
        InInstance(m, z);
        if Leaving(dict, m, z, tag) {
          MemberReady(dict, m, z, tag);
        }
      } else {
        var m1 := GroupClosed(m).value;
        var z1 := ClosedHolds(m, z, m1);
        if Leaving(dict, m, z, tag) {
          ClosedLeaves(dict, m, z, tag, m1, z1);
        }
        z' := SettledHolds(dict, m1, z1, tag, m');
      }
    }
  }

  lemma {:induction false} InInstance(m: Machine, z: Growing)
    requires Holds(m, z) && m.stack != [] && m.Innermost().instance.Some?
    ensures Placeable(z)
  {
  }

  /** What a field is on the wire and what it is read as. */
  predicate Alike(t: Token, w: Token) {
    || w == Token(t.entry.(depth := 0), None)
    || (t.entry.kind.Field? && t.number.Some? && w == CountToken(t.entry.tag, t.number.value))
  }

  predicate AllAlike(ts: seq<Token>, ws: seq<Token>) {
    |ts| == |ws| && forall i :: 0 <= i < |ts| ==> Alike(ts[i], ws[i])
  }

  lemma {:induction false} PlacedHolds(dict: Dict, m: Machine, z: Growing, t: Token, m': Machine)
    returns (z': Growing, w: Token)
    requires Holds(m, z) && m.Sound() && Placeable(z) && t.entry.IsField() && Placed(dict, m, t) == Ok(m')
    ensures Holds(m', z') && ReadTokens(z') == ReadTokens(z) + [w] && Alike(t, w)
    ensures t.entry.kind.Field? && GrowingShaped(z) ==> GrowingShaped(z')
    ensures !t.entry.kind.Field? ==>
              z' == Added(z, m.region, Node(t.entry.(depth := 0), [])) && m' == m.(tape := m'.tape) && w.number.None?
    ensures Ready(dict, m, z, t.entry.tag) ==> GrownFit(dict, m', z')
  {
    hide Holds, ReadTokens, FlatNode, NodeTokens, Added, GrowingShaped, Ready, GrownFit;
    var group := if t.entry.kind.Field? then Opened(dict, m.Context(), t.entry.tag) else None;
    if group.None? {
      var n := Node(t.entry.(depth := 0), []);
      w := Token(t.entry.(depth := 0), None);
      FieldNode(t.entry, m.Depth());
      AddedHolds(m, z, n);
      z' := Added(z, m.region, n);
      if t.entry.kind.Field? && GrowingShaped(z) {
        NodeAddedShaped(z, m.region, n);
      }
      if Ready(dict, m, z, t.entry.tag) {
        LeafFits(dict, m, z, n, m');
      }
    } else {
      w := CountToken(t.entry.tag, t.number.value);
      if t.number.value == 0 {
        var n := Node(GroupEntry(t.entry.tag), []);
        NoInstanceNode(t.entry.tag, m.Depth());
        AddedHolds(m, z, n);
        z' := Added(z, m.region, n);
        if GrowingShaped(z) {
          assert ShapedNode(n, false);
          NodeAddedShaped(z, m.region, n);
        }
        if Ready(dict, m, z, t.entry.tag) {
          LeafFits(dict, m, z, n, m');
        }
      } else {
        z' := OpenedHolds(m, z, t.entry.tag, t.number.value, group.value, m');
        if Ready(dict, m, z, t.entry.tag) {
          GroupFits(dict, m, z, group.value, Level(t.entry.tag, t.number.value, [], None), m');
        }
      }
    }
  }

  lemma {:induction false} FieldNode(e: Entry, depth: nat)
    requires e.IsField()
    ensures FlatNode(Node(e.(depth := 0), []), depth) == [e.(depth := depth)]
    ensures NodeTokens(Node(e.(depth := 0), [])) == [Token(e.(depth := 0), None)]
  {
  }

  lemma {:induction false} NoInstanceNode(tag: nat, depth: nat)
    ensures FlatNode(Node(GroupEntry(tag), []), depth) == [GroupEntry(tag).(depth := depth)]
    ensures NodeTokens(Node(GroupEntry(tag), [])) == [CountToken(tag, 0)]
  {
  }

  /** A group opens. */
  lemma {:induction false} OpenedHolds(m: Machine, z: Growing, tag: nat, declared: nat, g: nat, m': Machine)
    returns (z': Growing)
    requires Holds(m, z) && m.Sound() && Placeable(z) && declared > 0 && m'.Sound()
    requires m' == m.(tape := m.tape + [GroupEntry(tag).(depth := m.Depth())],
                      stack := m.stack + [Frame(g, |m.tape|, None, declared, 0, m.Depth())])
    ensures Holds(m', z') && ReadTokens(z') == ReadTokens(z) + [CountToken(tag, declared)]
    ensures z' == z.(levels := z.levels + [Level(tag, declared, [], None)])
    ensures GrowingShaped(z) ==> GrowingShaped(z')
  {
    hide GrowingShaped, DoneTape, LevelTape, LevelTokens, GroupEntry, Tokens, LevelsTape, LevelsTokens, FramesFit;
    DepthIs(m, z);
    var l, ls := Level(tag, declared, [], None), z.levels;
    z' := z.(levels := ls + [l]);
    NewLevel(ls, l);
    SameDone(z, z', m.region);
    var d, e := DoneTape(z, m.region), [GroupEntry(tag).(depth := |ls|)];
    AddThird(d, LevelsTape(ls), e);
    AddThird(Tokens(z.h) + Tokens(z.b) + Tokens(z.t), LevelsTokens(ls), [CountToken(tag, declared)]);
    NewFrame(m.stack, ls, |d|, Frame(g, |m.tape|, None, declared, 0, m.Depth()), l);
    if GrowingShaped(z) {
      OpenedShaped(z, l);
    }
  }

  lemma {:induction false} OpenedShaped(z: Growing, l: Level)
    requires GrowingShaped(z) && l.kids == [] && l.current == None
    ensures GrowingShaped(z.(levels := z.levels + [l]))
  {
    assert LevelShaped(l);
  }

  lemma {:induction false} NewLevel(ls: seq<Level>, l: Level)
    requires l.kids == [] && l.current == None
    ensures LevelsTape(ls + [l]) == LevelsTape(ls) + [GroupEntry(l.tag).(depth := |ls|)]
    ensures LevelsTokens(ls + [l]) == LevelsTokens(ls) + [CountToken(l.tag, l.declared)]
  {
    hide LevelTape, LevelTokens;
    assert (ls + [l])[..|ls|] == ls;
    EmptyLevel(l, |ls|);
  }

  lemma {:induction false} EmptyLevel(l: Level, depth: nat)
    requires l.kids == [] && l.current == None
    ensures LevelTape(l, depth) == [GroupEntry(l.tag).(depth := depth)]
    ensures LevelTokens(l) == [CountToken(l.tag, l.declared)]
  {
    assert LevelTape(l, depth) == [GroupEntry(l.tag).(depth := depth)] + [] + [];
    assert LevelTokens(l) == [CountToken(l.tag, l.declared)] + [] + [];
  }

  lemma {:induction false} NewFrame(stack: seq<Frame>, ls: seq<Level>, base: nat, f: Frame, l: Level)
    requires FramesFit(stack, ls, base) && (ls != [] ==> ls[|ls| - 1].current.Some?)
    requires FrameFits(f, l, base + |LevelsTape(ls)|, |ls|)
    ensures FramesFit(stack + [f], ls + [l], base)
  {
    hide FrameFits, LevelsTape;
    assert (ls + [l])[..|ls|] == ls && (stack + [f])[..|ls|] == stack;
  }

  /** A region begins. */
  lemma {:induction false} EnteredHolds(dict: Dict, m: Machine, z: Growing, tag: nat, m': Machine)
    requires Holds(m, z) && m.stack == [] && RegionEntered(dict, m, tag) == Ok(m')
    ensures Holds(m', z) && Placeable(z)
  {
    hide GapSlots;
    assert Flat([], 0) == [];
    hide Flat;
    var h, g, b, t := Flat(z.h, 0), GapSlots(), Flat(z.b, 0), Flat(z.t, 0);
    assert m.region == Header ==> h + [] + [] + [] + [] + g == h + g + [] + [] + [];
    assert z.levels == [] && LevelsTape(z.levels) == [];
  }

  // ---------------------------------------------------------------------
  // A Length and its data
  // ---------------------------------------------------------------------

  /** A field that settles in a group is one of that group's. */
  lemma {:induction false} SettledBelongs(dict: Dict, m: Machine, tag: nat, m': Machine)
    requires m.Sound() && Settled(dict, m, tag) == Ok(m') && m'.stack != []
    ensures !Skips(dict, m'.Innermost().group, tag) && m'.Innermost().instance.Some?
    decreases |m.stack|
  {
    hide GroupClosed;
    var def := dict.groups(m.Innermost().group);
    if tag != def.delimiter && tag !in def.members {
      SettledBelongs(dict, GroupClosed(m).value, tag, m');
    }
  }

  lemma {:induction false} EnteredStays(dict: Dict, c: Machine, tag: nat, c': Machine)
    requires c.stack == [] && RegionEntered(dict, c, tag) == Ok(c')
    ensures Stays(dict, c'.region, tag)
  {
  }

  /** Where the Length was placed: in a group's instance, or in a region. */
  predicate PlacedAt(dict: Dict, c: Machine, tag: nat) {
    if c.stack != [] then !Skips(dict, c.Innermost().group, tag) && c.Innermost().instance.Some?
    else Stays(dict, c.region, tag)
  }

  /** Data goes where its Length went. */
  lemma {:induction false} DataFollows(dict: Dict, c: Machine, l: nat)
    requires PairsTogether(dict) && l in dict.dataOf && c.Sound() && PlacedAt(dict, c, l)
    ensures var d := dict.dataOf[l];
            Settled(dict, c, d) == Ok(c) && (c.stack == [] ==> RegionEntered(dict, c, d) == Ok(c))
  {
    var d := dict.dataOf[l];
    if c.stack != [] {
      MemberSettled(dict, c, d);
    } else {
      StayEntered(dict, c, d);
    }
  }

  /** Where a field is placed once it has settled. */
  lemma {:induction false} SettledPlace(dict: Dict, m: Machine, z: Growing, t: Token, m': Machine)
    returns (c: Machine, zc: Growing)
    requires Holds(m, z) && m.Sound() && Pushed(dict, m, t) == Ok(m')
    ensures Holds(c, zc) && c.Sound() && Placeable(zc) && Placed(dict, c, t) == Ok(m') && PlacedAt(dict, c, t.entry.tag)
    ensures ReadTokens(zc) == ReadTokens(z) && (GrowingShaped(z) ==> GrowingShaped(zc))
    ensures GrownFit(dict, m, z) ==> Ready(dict, c, zc, t.entry.tag)
  {
    hide Holds, ReadTokens, Settled, RegionEntered, Placed, Placeable, GrowingShaped, GrownFit, Ready, Leaving;
    var tag := t.entry.tag;
    c := Settled(dict, m, tag).value;
    zc := SettledHolds(dict, m, z, tag, c);
    if GrownFit(dict, m, z) {
      RestedLeaves(dict, m, z, tag);
    }
    if c.stack != [] {
      SettledBelongs(dict, m, tag, c);
    } else {
      var c1 := RegionEntered(dict, c, tag).value;
      EnteredHolds(dict, c, zc, tag, c1);
      EnteredStays(dict, c, tag, c1);
      HoldsSound(c1, zc);
      if GrownFit(dict, m, z) {
        EnteredReady(dict, c, zc, tag, c1);
      }
      c := c1;
    }
  }

  lemma {:induction false} PushedHolds(dict: Dict, m: Machine, z: Growing, t: Token, m': Machine)
    returns (z': Growing, w: Token)
    requires Holds(m, z) && m.Sound() && t.entry.IsField() && Pushed(dict, m, t) == Ok(m')
    ensures Holds(m', z') && ReadTokens(z') == ReadTokens(z) + [w] && Alike(t, w)
    ensures t.entry.kind.Field? && GrowingShaped(z) ==> GrowingShaped(z')
    ensures GrownFit(dict, m, z) ==> GrownFit(dict, m', z')
  {
    hide Holds, ReadTokens, Placed, Placeable, GrowingShaped, GrownFit, Ready, Pushed, PlacedAt;
    var c, zc := SettledPlace(dict, m, z, t, m');
    z', w := PlacedHolds(dict, c, zc, t, m');
  }

  lemma {:induction false} PairPushed(dict: Dict, m: Machine, z: Growing, t: Token, t': Token, m1: Machine, m2: Machine)
    returns (z': Growing, w: Token, w': Token)
    requires Holds(m, z) && m.Sound() && PairsTogether(dict) && GrowingShaped(z)
    requires t.entry.kind.DataLen? && t'.entry.kind.Data? && t.entry.tag in dict.dataOf && t'.entry.tag == dict.dataOf[t.entry.tag]
    requires Pushed(dict, m, t) == Ok(m1) && m1.Sound() && Pushed(dict, m1, t') == Ok(m2)
    ensures Holds(m2, z') && ReadTokens(z') == ReadTokens(z) + [w, w'] && Alike(t, w) && Alike(t', w')
    ensures GrowingShaped(z')
    ensures GrownFit(dict, m, z) ==> GrownFit(dict, m2, z')
  {
    hide Holds, ReadTokens, Placed, GrowingShaped, PairsTogether, Added, GrownFit, Ready;
    var c, zc := SettledPlace(dict, m, z, t, m1);
    var z1;
    z1, w := PlacedHolds(dict, c, zc, t, m1);
    SamePlace(dict, c, m1, t.entry.tag);
    DataFollows(dict, m1, t.entry.tag);
    if GrownFit(dict, m, z) {
      DataReady(dict, m1, z1, t.entry.tag);
    }
    PairAddedShaped(zc, c.region, Node(t.entry.(depth := 0), []), Node(t'.entry.(depth := 0), []));
    z', w' := PlacedHolds(dict, m1, z1, t', m2);
    assert ReadTokens(z) + [w] + [w'] == ReadTokens(z) + [w, w'];
  }

  lemma {:induction false} DataReady(dict: Dict, c: Machine, z: Growing, l: nat)
    requires Holds(c, z) && c.Sound() && GrownFit(dict, c, z) && PairsTogether(dict) && l in dict.dataOf && PlacedAt(dict, c, l)
    ensures Ready(dict, c, z, dict.dataOf[l])
  {
    hide Holds, GrownFit, Ready, Leaving, Settled, RegionEntered;
    var d := dict.dataOf[l];
    RestedLeaves(dict, c, z, d);
    DataFollows(dict, c, l);
    HoldsAhead(c, z);
    if c.stack != [] {
      InInstance(c, z);
      MemberReady(dict, c, z, d);
    } else {
      EnteredReady(dict, c, z, d, c);
    }
  }

  lemma {:induction false} SamePlace(dict: Dict, c: Machine, c': Machine, tag: nat)
    requires PlacedAt(dict, c, tag) && c' == c.(tape := c'.tape)
    ensures PlacedAt(dict, c', tag)
  {
  }

  // ---------------------------------------------------------------------
  // Whole runs
  // ---------------------------------------------------------------------

  predicate AllFieldTokens(ts: seq<Token>) {
    forall i :: 0 <= i < |ts| ==> ts[i].entry.IsField()
  }

  lemma {:induction false} RanHolds(dict: Dict, m: Machine, z: Growing, ts: seq<Token>, m': Machine)
    returns (z': Growing, ws: seq<Token>)
    requires Holds(m, z) && m.Sound() && AllFieldTokens(ts) && Ran(dict, m, ts) == Ok(m')
    ensures Holds(m', z') && ReadTokens(z') == ReadTokens(z) + ws && AllAlike(ts, ws)
    ensures GrownFit(dict, m, z) ==> GrownFit(dict, m', z')
    decreases |ts|
  {
    hide Holds, ReadTokens, Pushed, Alike, GrownFit;
    if ts == [] {
      z', ws := z, [];
      assert ReadTokens(z) + [] == ReadTokens(z);
    } else {
      var m1 := Pushed(dict, m, ts[0]).value;
      var z1, w := PushedHolds(dict, m, z, ts[0], m1);
      var ws1;
      z', ws1 := RanHolds(dict, m1, z1, ts[1..], m');
      ws := [w] + ws1;
      assert ReadTokens(z) + [w] + ws1 == ReadTokens(z) + ([w] + ws1);
    }
  }

  lemma {:induction false} AllClosedHolds(dict: Dict, m: Machine, z: Growing, m': Machine) returns (z': Growing)
    requires Holds(m, z) && m.Sound() && ClosedTo(m, 0) == Ok(m')
    ensures Holds(m', z') && z'.levels == [] && ReadTokens(z') == ReadTokens(z)
    ensures GrowingShaped(z) ==> GrowingShaped(z')
    ensures Closable(dict, m, z) ==> Conforms(dict, z'.h, z'.b, z'.t)
    decreases |m.stack|
  {
    hide Holds, ReadTokens, GroupClosed, GrowingShaped, Closable, Conforms;
    HoldsSound(m, z);
    if m.stack == [] {
      z' := z;
      if Closable(dict, m, z) {
        ClosedConforms(dict, m, z);
      }
    } else {
      var m1 := GroupClosed(m).value;
      var z1 := ClosedHolds(m, z, m1);
      if Closable(dict, m, z) {
        ClosedCloses(dict, m, z, m1, z1);
      }
      z' := AllClosedHolds(dict, m1, z1, m');
    }
  }

  lemma {:induction false} FinishedHolds(m: Machine, z: Growing)
    requires Holds(m, z) && z.levels == []
    ensures var f := Finished(m);
            Image(f.tape, f.bodyStart, f.trailerStart) == ImageOf(Doc(z.h + [GapNode(HEADER_GAP)], z.b, z.t))
    ensures ReadTokens(z) == Tokens(z.h) + Tokens(z.b) + Tokens(z.t)
  {
    FlatAppend(z.h, [GapNode(HEADER_GAP)], 0);
    SizeAppend(z.h, [GapNode(HEADER_GAP)]);
    FlatOne(GapNode(HEADER_GAP), 0);
    assert Flat([GapNode(HEADER_GAP)], 0) == GapSlots();
    NothingLaid(z);
    hide GapSlots, Flat, Tokens;
    var h, g := Flat(z.h, 0), GapSlots();
    assert m.region == Header ==> h + [] + [] + [] + [] + g == h + g + [] + [];
    assert m.region != Header ==> h + g + Flat(z.b, 0) + Flat(z.t, 0) + [] == h + g + Flat(z.b, 0) + Flat(z.t, 0);
    assert Tokens(z.h) + Tokens(z.b) + Tokens(z.t) + [] == Tokens(z.h) + Tokens(z.b) + Tokens(z.t);
  }

  /**
   * Whatever is parsed: the tape lays out trees, their fields in order are the fields that came,
   * and a group's field is the number of its instances. The trees conform to the dictionary.
   */
  lemma {:induction false} ParsedIsLossless(dict: Dict, ts: seq<Token>, m: Machine)
    returns (h: seq<Node>, b: seq<Node>, t: seq<Node>)
    requires AllFieldTokens(ts) && Parsed(dict, ts) == Ok(m)
    ensures Image(m.tape, m.bodyStart, m.trailerStart) == ImageOf(Doc(h + [GapNode(HEADER_GAP)], b, t))
    ensures AllAlike(ts, Tokens(h) + Tokens(b) + Tokens(t))
    ensures Conforms(dict, h, b, t)
  {
    var z := Growing([], [], [], []);
    NothingYet(dict);
    hide Holds, ReadTokens, Ran, ClosedTo, Finished, ImageOf, AllAlike, GrownFit, Closable, Conforms, Tokens;
    var m1 := Ran(dict, EMPTY, ts).value;
    var z1, ws := RanHolds(dict, EMPTY, z, ts, m1);
    RestedCloses(dict, m1, z1);
    var m2 := ClosedTo(m1, 0).value;
    var z2 := AllClosedHolds(dict, m1, z1, m2);
    FinishedHolds(m2, z2);
    assert [] + ws == ws;
    h, b, t := z2.h, z2.b, z2.t;
  }

  lemma {:induction false} RanShaped(dict: Dict, m: Machine, z: Growing, ts: seq<Token>, m': Machine)
    returns (z': Growing, ws: seq<Token>)
    requires Holds(m, z) && m.Sound() && GrowingShaped(z) && PairsTogether(dict)
    requires AllFieldTokens(ts) && WellPaired(dict, ts) && Ran(dict, m, ts) == Ok(m')
    ensures Holds(m', z') && ReadTokens(z') == ReadTokens(z) + ws && AllAlike(ts, ws)
    ensures GrowingShaped(z')
    ensures GrownFit(dict, m, z) ==> GrownFit(dict, m', z')
    decreases |ts|
  {
    hide Holds, ReadTokens, Pushed, Alike, GrowingShaped, PairsTogether, GrownFit;
    if ts == [] {
      z', ws := z, [];
      assert ReadTokens(z) + [] == ReadTokens(z);
    } else {
      var m1 := Pushed(dict, m, ts[0]).value;
      if ts[0].entry.kind.DataLen? {
        var rest := ts[1..];
        assert rest[0] == ts[1] && rest[1..] == ts[2..];
        var m2 := Pushed(dict, m1, ts[1]).value;
        var z2, w, w' := PairPushed(dict, m, z, ts[0], ts[1], m1, m2);
        PairedRest(dict, ts, 2);
        var ws2;
        z', ws2 := RanShaped(dict, m2, z2, ts[2..], m');
        ws := [w, w'] + ws2;
        assert ReadTokens(z) + [w, w'] + ws2 == ReadTokens(z) + ws;
        AlikeTwo(ts, w, w', ws2);
      } else {
        var z1, w := PushedHolds(dict, m, z, ts[0], m1);
        PairedRest(dict, ts, 1);
        var ws1;
        z', ws1 := RanShaped(dict, m1, z1, ts[1..], m');
        ws := [w] + ws1;
        assert ReadTokens(z) + [w] + ws1 == ReadTokens(z) + ws;
      }
    }
  }

  lemma {:induction false} AlikeTwo(ts: seq<Token>, w: Token, w': Token, ws: seq<Token>)
    requires |ts| >= 2 && Alike(ts[0], w) && Alike(ts[1], w') && AllAlike(ts[2..], ws)
    ensures AllAlike(ts, [w, w'] + ws)
  {
    hide Alike;
    var all := [w, w'] + ws;
    forall i | 0 <= i < |ts| ensures Alike(ts[i], all[i]) {
      if i >= 2 {
        assert Alike(ts[2..][i - 2], ws[i - 2]);
      }
    }
  }

  /** Whole pairs taken off the front leave whole pairs. */
  lemma {:induction false} PairedRest(dict: Dict, ts: seq<Token>, k: nat)
    requires WellPaired(dict, ts) && k <= |ts| && AllFieldTokens(ts)
    requires k > 0 && !ts[k - 1].entry.kind.DataLen?
    ensures WellPaired(dict, ts[k..]) && AllFieldTokens(ts[k..])
  {
    var rest := ts[k..];
    forall i | 0 <= i < |rest| && rest[i].entry.kind.Data?
      ensures i > 0 && rest[i - 1].entry.kind.DataLen?
    {
      assert ts[k + i].entry.kind.Data?;
      assert ts[k + i - 1].entry.kind.DataLen?;
    }
    forall i | 0 <= i < |rest| && rest[i].entry.kind.DataLen?
      ensures i + 1 < |rest| && rest[i + 1].entry.kind.Data? && rest[i].entry.tag in dict.dataOf
      ensures rest[i + 1].entry.tag == dict.dataOf[rest[i].entry.tag]
    {
      assert ts[k + i].entry.kind.DataLen?;
    }
  }

  /**
   * What the parser builds is well formed, so that edits of it are defined, and is what came, field
   * by field. It conforms to the dictionary: its fields, one after the other, can only be read as
   * these trees.
   */
  lemma {:induction false} ParsedIsWellFormed(dict: Dict, ts: seq<Token>, m: Machine) returns (doc: Doc)
    requires PairsTogether(dict) && AllFieldTokens(ts) && WellPaired(dict, ts) && Parsed(dict, ts) == Ok(m)
    ensures WellFormed(doc) && ImageOf(doc) == Image(m.tape, m.bodyStart, m.trailerStart)
    ensures AllAlike(ts, Tokens(Fields(doc.header)) + Tokens(doc.body) + Tokens(doc.trailer))
    ensures Conforms(dict, Fields(doc.header), doc.body, doc.trailer)
  {
    var z := Growing([], [], [], []);
    NothingYet(dict);
    hide Holds, ReadTokens, Ran, ClosedTo, Finished, ImageOf, AllAlike, PairsTogether, GrowingShaped, GrownFit, Closable;
    hide Conforms, Tokens;
    var m1 := Ran(dict, EMPTY, ts).value;
    var z1, ws := RanShaped(dict, EMPTY, z, ts, m1);
    RestedCloses(dict, m1, z1);
    var m2 := ClosedTo(m1, 0).value;
    var z2 := AllClosedHolds(dict, m1, z1, m2);
    FinishedHolds(m2, z2);
    assert [] + ws == ws;
    doc := Doc(z2.h + [GapNode(HEADER_GAP)], z2.b, z2.t);
    BuiltWellFormed(z2);
  }

  /** Before anything has come. */
  lemma {:induction false} NothingYet(dict: Dict)
    ensures var z := Growing([], [], [], []);
            Holds(EMPTY, z) && ReadTokens(z) == [] && GrowingShaped(z) && GrownFit(dict, EMPTY, z)
  {
    NothingGrown(dict);
    hide GrownFit;
  }

  lemma {:induction false} NothingGrown(dict: Dict)
    ensures GrownFit(dict, EMPTY, Growing([], [], [], []))
  {
    hide Clear, NodeFit;
    EmptyFits(dict, Top(true));
    EmptyFits(dict, Top(false));
    hide Fit;
  }

  lemma {:induction false} BuiltWellFormed(z: Growing)
    requires GrowingShaped(z)
    ensures var doc := Doc(z.h + [GapNode(HEADER_GAP)], z.b, z.t);
            WellFormed(doc) && Fields(doc.header) == z.h
  {
    hide Shaped;
    var h := z.h + [GapNode(HEADER_GAP)];
    assert Fields(h) == z.h;
    assert h[|h| - 1] == GapNode(HEADER_GAP) && NodeSize(GapNode(HEADER_GAP)) == HEADER_GAP;
  }
}
