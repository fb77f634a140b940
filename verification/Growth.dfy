/**
 * Trees under construction (message/parse.rs): what the stack machine's tape and stack stand for
 * while groups are open, and what closing a group or starting an instance does to them.
 */
module Growth {
  import opened Tape
  import opened Document
  import opened Groups
  import opened Parsing
  import opened RoundTrip
  import opened Messages
  import opened Shape

  // ---------------------------------------------------------------------
  // Trees under construction
  // ---------------------------------------------------------------------

  /** An open group: its finished instances, and the nodes of the one it is in, if it has started one. */
  datatype Level = Level(tag: nat, declared: nat, kids: seq<Node>, current: Option<seq<Node>>)

  /** The finished nodes of each region, and the open groups, outermost first. */
  datatype Growing = Growing(h: seq<Node>, b: seq<Node>, t: seq<Node>, levels: seq<Level>)

  /** A group's tape while it is open: its span and count, and its last instance's span, are still to be written. */
  function LevelTape(l: Level, depth: nat): seq<Entry> {
    [GroupEntry(l.tag).(depth := depth)] + Flat(l.kids, depth + 1)
    + match l.current { case None => [] case Some(ns) => [INSTANCE.(depth := depth + 1)] + Flat(ns, depth + 1) }
  }

  function LevelsTape(ls: seq<Level>): seq<Entry>
    decreases |ls|
  {
    if ls == [] then [] else LevelsTape(ls[..|ls| - 1]) + LevelTape(ls[|ls| - 1], |ls| - 1)
  }

  /** What is finished: the gap comes with the first field behind the header. */
  function DoneTape(z: Growing, r: Region): seq<Entry> {
    Flat(z.h, 0) + (if r == Header then [] else GapSlots()) + Flat(z.b, 0) + Flat(z.t, 0)
  }

  function LevelTokens(l: Level): seq<Token> {
    [CountToken(l.tag, l.declared)] + InstanceTokens(l.kids)
    + match l.current { case None => [] case Some(ns) => Tokens(ns) }
  }

  function LevelsTokens(ls: seq<Level>): seq<Token>
    decreases |ls|
  {
    if ls == [] then [] else LevelsTokens(ls[..|ls| - 1]) + LevelTokens(ls[|ls| - 1])
  }

  /** The fields read so far. */
  function ReadTokens(z: Growing): seq<Token> {
    Tokens(z.h) + Tokens(z.b) + Tokens(z.t) + LevelsTokens(z.levels)
  }

  // ---------------------------------------------------------------------
  // The machine and the trees
  // ---------------------------------------------------------------------

  /** An open group's frame, and where its entry is. */
  predicate FrameFits(f: Frame, l: Level, at: nat, depth: nat) {
    && f.entry == at && f.depth == depth && f.declared == l.declared > 0
    && match l.current {
         case None => l.kids == [] && f.count == 0 && f.instance == None
         case Some(_) => f.count == |l.kids| + 1 && f.instance == Some(at + 1 + Size(l.kids))
       }
  }

  predicate FramesFit(stack: seq<Frame>, ls: seq<Level>, base: nat)
    decreases |ls|
  {
    && |stack| == |ls|
    && (ls != [] ==>
          var k := |ls| - 1;
          && FramesFit(stack[..k], ls[..k], base)
          && (k > 0 ==> ls[k - 1].current.Some?)
          && FrameFits(stack[k], ls[k], base + |LevelsTape(ls[..k])|, k))
  }

  /** The regions that have not come are empty, and the boundaries that have are set. */
  predicate BoundsFit(m: Machine, z: Growing) {
    match m.region
    case Header => z.b == [] && z.t == []
    case Body => z.t == [] && m.bodyStart == Size(z.h) + HEADER_GAP
    case Trailer => m.bodyStart == Size(z.h) + HEADER_GAP && m.trailerStart == m.bodyStart + Size(z.b)
  }

  /** The machine's tape and stack are those of the trees. */
  predicate Holds(m: Machine, z: Growing) {
    && m.Sound()
    && m.tape == DoneTape(z, m.region) + LevelsTape(z.levels)
    && FramesFit(m.stack, z.levels, |DoneTape(z, m.region)|)
    && BoundsFit(m, z)
  }

  /** A node finished: it goes into the innermost open instance, or into the region. */
  function Added(z: Growing, r: Region, n: Node): Growing
    requires z.levels != [] ==> z.levels[|z.levels| - 1].current.Some?
  {
    if z.levels == [] then
      match r {
        case Header => z.(h := z.h + [n])
        case Body => z.(b := z.b + [n])
        case Trailer => z.(t := z.t + [n])
      }
    else
      var k := |z.levels| - 1;
      var l := z.levels[k];
      z.(levels := z.levels[..k] + [l.(current := Some(l.current.value + [n]))])
  }

  /** Where the next node goes, it is laid out at this depth. */
  predicate Placeable(z: Growing) {
    z.levels != [] ==> z.levels[|z.levels| - 1].current.Some?
  }

  lemma {:induction false} DoneAdded(z: Growing, r: Region, n: Node)
    requires z.levels == [] && (r == Header ==> z.b == [] && z.t == []) && (r == Body ==> z.t == [])
    ensures DoneTape(Added(z, r, n), r) == DoneTape(z, r) + FlatNode(n, 0)
    ensures ReadTokens(Added(z, r, n)) == ReadTokens(z) + NodeTokens(n)
  {
    var part := match r { case Header => z.h case Body => z.b case Trailer => z.t };
    FlatAppend(part, [n], 0);
    FlatOne(n, 0);
    TokensSnoc(part, n);
    NothingLaid(z);
    hide FlatNode, NodeTokens, GapSlots, Flat, Tokens, LevelsTokens;
    var gap := if r == Header then [] else GapSlots();
    match r
    case Header =>
      AddFirst(Flat(z.h, 0), FlatNode(n, 0));
      AddFirst(Tokens(z.h), NodeTokens(n));
    case Body =>
      AddSecond(Flat(z.h, 0) + gap, Flat(z.b, 0), FlatNode(n, 0));
      AddSecond(Tokens(z.h), Tokens(z.b), NodeTokens(n));
    case Trailer =>
      AddThird(Flat(z.h, 0) + gap + Flat(z.b, 0), Flat(z.t, 0), FlatNode(n, 0));
      AddThird(Tokens(z.h) + Tokens(z.b), Tokens(z.t), NodeTokens(n));
  }

  lemma {:induction false} NothingLaid(z: Growing)
    ensures z.b == [] ==> Flat(z.b, 0) == [] && Tokens(z.b) == []
    ensures z.t == [] ==> Flat(z.t, 0) == [] && Tokens(z.t) == []
    ensures z.levels == [] ==> LevelsTokens(z.levels) == []
  {
  }

  lemma {:induction false} AddFirst<T>(a: seq<T>, x: seq<T>)
    ensures a + x + [] + [] + [] == a + [] + [] + [] + x
  {
  }

  lemma {:induction false} AddSecond<T>(a: seq<T>, b: seq<T>, x: seq<T>)
    ensures a + (b + x) + [] + [] == a + b + [] + [] + x
    ensures a + (b + x) + [] == a + b + [] + x
  {
  }

  lemma {:induction false} AddThird<T>(a: seq<T>, b: seq<T>, x: seq<T>)
    ensures a + (b + x) + [] == a + b + [] + x
    ensures a + (b + x) == a + b + x
  {
  }

  lemma {:induction false} TokensSnoc(ns: seq<Node>, n: Node)
    ensures Tokens(ns + [n]) == Tokens(ns) + NodeTokens(n)
    ensures InstanceTokens(ns + [n]) == InstanceTokens(ns) + Tokens(n.kids)
    decreases |ns|
  {
    hide NodeTokens;
    if ns == [] {
      assert ns + [n] == [n] && [n][1..] == [];
      assert NodeTokens(n) + [] == [] + NodeTokens(n);
      assert Tokens(n.kids) + [] == [] + Tokens(n.kids);
    } else {
      TokensSnoc(ns[1..], n);
      assert (ns + [n])[1..] == ns[1..] + [n];
      assert NodeTokens(ns[0]) + (Tokens(ns[1..]) + NodeTokens(n)) == NodeTokens(ns[0]) + Tokens(ns[1..]) + NodeTokens(n);
      assert Tokens(ns[0].kids) + (InstanceTokens(ns[1..]) + Tokens(n.kids))
             == Tokens(ns[0].kids) + InstanceTokens(ns[1..]) + Tokens(n.kids);
    }
  }

  lemma {:induction false} LevelAdded(l: Level, n: Node, depth: nat)
    requires l.current.Some?
    ensures var l' := l.(current := Some(l.current.value + [n]));
            && LevelTape(l', depth) == LevelTape(l, depth) + FlatNode(n, depth + 1)
            && LevelTokens(l') == LevelTokens(l) + NodeTokens(n)
  {
    hide FlatNode, NodeTokens, Flat, Tokens, InstanceTokens, GroupEntry, CountToken;
    var ns := l.current.value;
    FlatAppend(ns, [n], depth + 1);
    FlatOne(n, depth + 1);
    TokensSnoc(ns, n);
    Behind4([GroupEntry(l.tag).(depth := depth)] + Flat(l.kids, depth + 1), [INSTANCE.(depth := depth + 1)],
            Flat(ns, depth + 1), FlatNode(n, depth + 1));
    AddThird([CountToken(l.tag, l.declared)] + InstanceTokens(l.kids), Tokens(ns), NodeTokens(n));
  }

  lemma {:induction false} Behind4<T>(a: seq<T>, x: seq<T>, b: seq<T>, n: seq<T>)
    ensures a + (x + (b + n)) == a + (x + b) + n
  {
  }

  /** The levels with another innermost one. */
  lemma {:induction false} Relevelled(ls: seq<Level>, l: Level)
    requires ls != []
    ensures var k := |ls| - 1;
            var ls' := ls[..k] + [l];
            && LevelsTape(ls') == LevelsTape(ls[..k]) + LevelTape(l, k)
            && LevelsTokens(ls') == LevelsTokens(ls[..k]) + LevelTokens(l)
            && LevelsTape(ls) == LevelsTape(ls[..k]) + LevelTape(ls[k], k)
            && LevelsTokens(ls) == LevelsTokens(ls[..k]) + LevelTokens(ls[k])
  {
    var k := |ls| - 1;
    assert (ls[..k] + [l])[..k] == ls[..k];
  }

  lemma {:induction false} FramesRelevelled(stack: seq<Frame>, ls: seq<Level>, base: nat, f: Frame, l: Level)
    requires FramesFit(stack, ls, base) && ls != []
    requires FrameFits(f, l, base + |LevelsTape(ls[..|ls| - 1])|, |ls| - 1)
    ensures FramesFit(stack[..|ls| - 1] + [f], ls[..|ls| - 1] + [l], base)
  {
    hide FrameFits, LevelsTape;
    var k := |ls| - 1;
    assert (stack[..k] + [f])[..k] == stack[..k] && (ls[..k] + [l])[..k] == ls[..k];
  }

  /** Frames are as deep as there are groups around. */
  lemma {:induction false} DepthIs(m: Machine, z: Growing)
    requires Holds(m, z)
    ensures m.Depth() == |z.levels| == |m.stack|
  {
  }

  /** A node put on the tape behind what is there is a node added to the trees. */
  lemma {:induction false} AddedHolds(m: Machine, z: Growing, n: Node)
    requires Holds(m, z) && Placeable(z)
    ensures var m' := m.(tape := m.tape + FlatNode(n, m.Depth()));
            Holds(m', Added(z, m.region, n))
    ensures ReadTokens(Added(z, m.region, n)) == ReadTokens(z) + NodeTokens(n)
  {
    hide Holds, FlatNode, NodeTokens, ReadTokens, Added;
    if z.levels == [] {
      AddedToRegion(m, z, n);
    } else {
      AddedToLevel(m, z, n);
      AddedIsRead(z, m.region, n);
    }
  }

  lemma {:induction false} AddedToRegion(m: Machine, z: Growing, n: Node)
    requires Holds(m, z) && z.levels == []
    ensures var m' := m.(tape := m.tape + FlatNode(n, m.Depth()));
            Holds(m', Added(z, m.region, n))
    ensures ReadTokens(Added(z, m.region, n)) == ReadTokens(z) + NodeTokens(n)
  {
    hide FlatNode, NodeTokens, LevelTape, LevelTokens, DoneTape, Tokens, ReadTokens;
    DepthIs(m, z);
    var r, d := m.region, DoneTape(z, m.region);
    DoneAdded(z, r, n);
    assert d + [] == d && d + FlatNode(n, 0) + [] == d + FlatNode(n, 0);
    SizesAdded(z, r, n);
  }

  lemma {:induction false} AddedToLevel(m: Machine, z: Growing, n: Node)
    requires Holds(m, z) && Placeable(z) && z.levels != []
    ensures var m' := m.(tape := m.tape + FlatNode(n, m.Depth()));
            Holds(m', Added(z, m.region, n))
  {
    hide FlatNode, LevelTape, DoneTape, LevelsTape, FramesFit;
    DepthIs(m, z);
    var r, d, ls := m.region, DoneTape(z, m.region), z.levels;
    var k, l := |ls| - 1, ls[|ls| - 1];
    var l' := l.(current := Some(l.current.value + [n]));
    LevelAdded(l, n, k);
    Relevelled(ls, l');
    SameFrames(m, z, l');
    SameDone(z, Added(z, r, n), r);
    var a, x := LevelsTape(ls[..k]), LevelTape(l, k);
    assert d + (a + x) + FlatNode(n, k + 1) == d + (a + (x + FlatNode(n, k + 1)));
  }

  /** The innermost group in the same frame, with more in the instance it is in. */
  lemma {:induction false} SameFrames(m: Machine, z: Growing, l': Level)
    requires Holds(m, z) && Placeable(z) && z.levels != []
    requires var l := z.levels[|z.levels| - 1];
             l'.current.Some? && l' == l.(current := l'.current)
    ensures |m.stack| == |z.levels|
    ensures FramesFit(m.stack, z.levels[..|z.levels| - 1] + [l'], |DoneTape(z, m.region)|)
  {
    hide LevelTape, DoneTape, LevelsTape;
    var k := |z.levels| - 1;
    FramesRelevelled(m.stack, z.levels, |DoneTape(z, m.region)|, m.stack[k], l');
    assert m.stack[..k] + [m.stack[k]] == m.stack;
  }

  lemma {:induction false} AddedIsRead(z: Growing, r: Region, n: Node)
    requires Placeable(z) && z.levels != []
    ensures ReadTokens(Added(z, r, n)) == ReadTokens(z) + NodeTokens(n)
  {
    hide NodeTokens, LevelTokens, Tokens, ReadTokens;
    var k, l := |z.levels| - 1, z.levels[|z.levels| - 1];
    var l' := l.(current := Some(l.current.value + [n]));
    LevelAdded(l, n, k);
    assert z.levels == z.levels[..k] + [l];
    ReadBehind(z, z.levels[..k], l, l', n);
  }

  lemma {:induction false} SizesAdded(z: Growing, r: Region, n: Node)
    requires z.levels == []
    ensures Size(Added(z, r, n).h) == Size(z.h) || r == Header
    ensures r == Trailer ==> Added(z, r, n).b == z.b && Added(z, r, n).h == z.h
    ensures r == Body ==> Added(z, r, n).t == z.t && Added(z, r, n).h == z.h
    ensures r == Header ==> Added(z, r, n).t == z.t && Added(z, r, n).b == z.b
    ensures Added(z, r, n).levels == []
  {
  }

  lemma {:induction false} SameDone(z: Growing, z': Growing, r: Region)
    requires z'.h == z.h && z'.b == z.b && z'.t == z.t
    ensures DoneTape(z', r) == DoneTape(z, r)
  {
  }

  lemma {:induction false} ReadBehind(z: Growing, outer: seq<Level>, l: Level, l': Level, n: Node)
    requires z.levels == outer + [l]
    requires LevelTokens(l') == LevelTokens(l) + NodeTokens(n)
    ensures ReadTokens(z.(levels := outer + [l'])) == ReadTokens(z) + NodeTokens(n)
  {
    hide NodeTokens, LevelTokens, Tokens;
    Relevelled(z.levels, l');
    assert z.levels[..|z.levels| - 1] == outer;
    var a, x, y, n' := Tokens(z.h) + Tokens(z.b) + Tokens(z.t), LevelsTokens(outer), LevelTokens(l), NodeTokens(n);
    assert a + (x + (y + n')) == a + (x + y) + n';
  }

  // ---------------------------------------------------------------------
  // The shape of trees under construction
  // ---------------------------------------------------------------------

  predicate LevelShaped(l: Level) {
    Shaped(l.kids, true) && (l.current.Some? ==> Shaped(l.current.value, false))
  }

  /** Everything finished so far, and everything in an open instance, is well-formed. */
  predicate GrowingShaped(z: Growing) {
    && Shaped(z.h, false) && Shaped(z.b, false) && Shaped(z.t, false)
    && forall k :: 0 <= k < |z.levels| ==> LevelShaped(z.levels[k])
  }

  lemma {:induction false} ShapedSnoc(ns: seq<Node>, n: Node, group: bool)
    requires Shaped(ns, group) && ShapedNode(n, group) && !n.entry.kind.DataLen? && !n.entry.kind.Data?
    ensures Shaped(ns + [n], group)
  {
    hide ShapedNode;
    if !group {
      assert Paired([n]);
      PairsAppend(ns, [n]);
    }
  }

  /** The nodes at the innermost open place. */
  function Place(z: Growing, r: Region): seq<Node>
    requires Placeable(z)
  {
    if z.levels == [] then (match r { case Header => z.h case Body => z.b case Trailer => z.t })
    else z.levels[|z.levels| - 1].current.value
  }

  lemma {:induction false} AddedShaped(z: Growing, r: Region, n: Node)
    requires GrowingShaped(z) && Placeable(z) && Shaped(Place(z, r) + [n], false)
    ensures GrowingShaped(Added(z, r, n))
  {
    hide Shaped;
  }

  lemma {:induction false} NodeAddedShaped(z: Growing, r: Region, n: Node)
    requires GrowingShaped(z) && Placeable(z)
    requires ShapedNode(n, false) && !n.entry.kind.DataLen? && !n.entry.kind.Data?
    ensures GrowingShaped(Added(z, r, n))
  {
    PlaceShaped(z, r);
    ShapedSnoc(Place(z, r), n, false);
    AddedShaped(z, r, n);
  }

  lemma {:induction false} PlaceShaped(z: Growing, r: Region)
    requires GrowingShaped(z) && Placeable(z)
    ensures Shaped(Place(z, r), false)
  {
    hide Shaped;
    if z.levels != [] {
      assert LevelShaped(z.levels[|z.levels| - 1]);
    }
  }

  /** A Length and its data, added one after the other. */
  lemma {:induction false} PairAddedShaped(z: Growing, r: Region, n: Node, n': Node)
    requires GrowingShaped(z) && Placeable(z)
    requires n.entry.kind.DataLen? && n'.entry.kind.Data? && n.kids == [] && n'.kids == []
    ensures Placeable(Added(z, r, n)) && GrowingShaped(Added(Added(z, r, n), r, n'))
  {
    var ns, z1 := Place(z, r), Added(z, r, n);
    PlaceShaped(z, r);
    PairSnoc(ns, n, n');
    assert Place(z1, r) == ns + [n];
    assert Added(z1, r, n') == Rest(z, r, ns + [n] + [n']);
    assert ns + [n] + [n'] == ns + [n, n'];
    RestShaped(z, r, ns + [n, n']);
  }

  /** The same trees with other nodes at the innermost open place. */
  function Rest(z: Growing, r: Region, ns: seq<Node>): Growing
    requires Placeable(z)
  {
    if z.levels == [] then (match r { case Header => z.(h := ns) case Body => z.(b := ns) case Trailer => z.(t := ns) })
    else
      var k := |z.levels| - 1;
      z.(levels := z.levels[..k] + [z.levels[k].(current := Some(ns))])
  }

  lemma {:induction false} RestShaped(z: Growing, r: Region, ns: seq<Node>)
    requires GrowingShaped(z) && Placeable(z) && Shaped(ns, false)
    ensures GrowingShaped(Rest(z, r, ns))
  {
    hide Shaped;
    if z.levels != [] {
      assert LevelShaped(z.levels[|z.levels| - 1]);
    }
  }

  lemma {:induction false} PairSnoc(ns: seq<Node>, n: Node, n': Node)
    requires Shaped(ns, false) && n.entry.kind.DataLen? && n'.entry.kind.Data? && n.kids == [] && n'.kids == []
    ensures Shaped(ns + [n, n'], false)
  {
    assert ShapedNode(n, false) && ShapedNode(n', false);
    hide ShapedNode;
    assert Paired([n, n']);
    PairsAppend(ns, [n, n']);
  }

  // ---------------------------------------------------------------------
  // Closing
  // ---------------------------------------------------------------------

  /** A group with the instance it is in finished. */
  function Ended(l: Level): Level {
    match l.current
    case None => l
    case Some(ns) => l.(kids := l.kids + [Node(INSTANCE, ns)], current := None)
  }

  lemma {:induction false} EndedTokens(l: Level)
    ensures LevelTokens(Ended(l)) == LevelTokens(l)
  {
    if l.current.Some? {
      TokensSnoc(l.kids, Node(INSTANCE, l.current.value));
      hide Tokens, InstanceTokens;
      var a, b, c := [CountToken(l.tag, l.declared)], InstanceTokens(l.kids), Tokens(l.current.value);
      assert a + (b + c) + [] == a + b + c;
    }
  }

  /** What is before the innermost open group. */
  function Outer(m: Machine, z: Growing): seq<Entry>
    requires z.levels != []
  {
    DoneTape(z, m.region) + LevelsTape(z.levels[..|z.levels| - 1])
  }

  lemma {:induction false} OuterIs(m: Machine, z: Growing)
    requires Holds(m, z) && z.levels != []
    ensures var k := |z.levels| - 1;
            && m.tape == Outer(m, z) + LevelTape(z.levels[k], k)
            && m.stack != [] && FrameFits(m.Innermost(), z.levels[k], |Outer(m, z)|, k)
  {
    hide LevelTape, DoneTape, FrameFits;
    var k := |z.levels| - 1;
    Relevelled(z.levels, z.levels[k]);
    var d, a, x := DoneTape(z, m.region), LevelsTape(z.levels[..k]), LevelTape(z.levels[k], k);
    assert d + (a + x) == d + a + x;
  }

  /** The tape once the innermost group's instance is finished. */
  lemma {:induction false} InstanceEnds(m: Machine, z: Growing)
    requires Holds(m, z) && z.levels != []
    ensures var k := |z.levels| - 1;
            InstanceClosed(m).tape == Outer(m, z) + LevelTape(Ended(z.levels[k]), k)
  {
    hide Holds, Outer, LevelTape, Flat, Size;
    var k, l := |z.levels| - 1, z.levels[|z.levels| - 1];
    OuterIs(m, z);
    HoldsSound(m, z);
    if l.current.Some? {
      CurrentEnds(m, Outer(m, z), l, k);
    }
  }

  lemma {:induction false} HoldsSound(m: Machine, z: Growing)
    requires Holds(m, z)
    ensures m.Sound() && |m.stack| == |z.levels|
  {
  }

  lemma {:induction false} CurrentEnds(m: Machine, o: seq<Entry>, l: Level, k: nat)
    requires m.Sound() && m.stack != [] && l.current.Some? && m.tape == o + LevelTape(l, k)
    requires m.Innermost().instance == Some(|o| + 1 + Size(l.kids))
    ensures InstanceClosed(m).tape == o + LevelTape(Ended(l), k)
  {
    hide Flat, Size, FlatNode, InstanceClosed, LevelTape, GroupEntry;
    var ns, e := l.current.value, [GroupEntry(l.tag).(depth := k)];
    EndedTape(l, k);
    Regrouped(o, e, Flat(l.kids, k + 1), [INSTANCE.(depth := k + 1)], Flat(ns, k + 1));
    InstanceCloses(m, o + e + Flat(l.kids, k + 1), ns, k + 1);
    RegroupedEnd(o, e, Flat(l.kids, k + 1), FlatNode(Node(INSTANCE, ns), k + 1));
  }

  lemma {:induction false} EndedTape(l: Level, k: nat)
    requires l.current.Some?
    ensures var ns, e := l.current.value, [GroupEntry(l.tag).(depth := k)];
            && LevelTape(l, k) == e + Flat(l.kids, k + 1) + ([INSTANCE.(depth := k + 1)] + Flat(ns, k + 1))
            && LevelTape(Ended(l), k) == e + (Flat(l.kids, k + 1) + FlatNode(Node(INSTANCE, ns), k + 1))
  {
    hide Flat, FlatNode, GroupEntry;
    var ns := l.current.value;
    FlatAppend(l.kids, [Node(INSTANCE, ns)], k + 1);
    FlatOne(Node(INSTANCE, ns), k + 1);
  }

  lemma {:induction false} Regrouped<T>(o: seq<T>, e: seq<T>, a: seq<T>, i: seq<T>, b: seq<T>)
    ensures o + (e + a + (i + b)) == (o + e + a) + i + b
  {
  }

  lemma {:induction false} RegroupedEnd<T>(o: seq<T>, e: seq<T>, a: seq<T>, b: seq<T>)
    ensures o + e + a + b == o + (e + (a + b))
  {
  }

  /** Another instance of the innermost group starts. */
  lemma {:induction false} StartedHolds(m: Machine, z: Growing, m': Machine) returns (z': Growing)
    requires Holds(m, z) && z.levels != [] && m.stack != [] && InstanceStarted(m) == Ok(m')
    ensures Holds(m', z') && Placeable(z') && ReadTokens(z') == ReadTokens(z) && z'.levels != []
    ensures var k := |z.levels| - 1;
            z' == z.(levels := z.levels[..k] + [Ended(z.levels[k]).(current := Some([]))])
    ensures GrowingShaped(z) ==> GrowingShaped(z')
  {
    hide Holds, Outer, LevelTape, LevelTokens, InstanceClosed, ReadTokens, GroupEntry, FrameFits;
    HoldsSound(m, z);
    var k, l := |z.levels| - 1, z.levels[|z.levels| - 1];
    var l' := Ended(l).(current := Some([]));
    z' := z.(levels := z.levels[..k] + [l']);
    OuterIs(m, z);
    InstanceEnds(m, z);
    EndedTokens(l);
    StartedTape(m, z, l, l', k);
    FrameDepth(m.Innermost(), l, |Outer(m, z)|, k);
    var f := m.Innermost().(count := m.Innermost().count + 1, instance := Some(|m.tape|));
    assert z.levels == z.levels[..k] + [l];
    RelevelHolds(m, z, m', f, l');
    ReadSame(z, z.levels[..k], l, l');
    if GrowingShaped(z) {
      StartedShaped(z, l');
    }
  }

  lemma {:induction false} StartedShaped(z: Growing, l': Level)
    requires GrowingShaped(z) && z.levels != [] && l' == Ended(z.levels[|z.levels| - 1]).(current := Some([]))
    ensures GrowingShaped(z.(levels := z.levels[..|z.levels| - 1] + [l']))
  {
    EndedShaped(z.levels[|z.levels| - 1]);
    assert Shaped([], false);
  }

  lemma {:induction false} EndedShaped(l: Level)
    requires LevelShaped(l)
    ensures Shaped(Ended(l).kids, true)
  {
    if l.current.Some? {
      ShapedSnoc(l.kids, Node(INSTANCE, l.current.value), true);
    }
  }

  lemma {:induction false} FrameDepth(f: Frame, l: Level, at: nat, depth: nat)
    requires FrameFits(f, l, at, depth)
    ensures f.depth == depth && f.entry == at && f.declared == l.declared > 0
  {
  }

  /** The innermost group exchanged for another state of it. */
  lemma {:induction false} RelevelHolds(m: Machine, z: Growing, m': Machine, f: Frame, l: Level)
    requires Holds(m, z) && z.levels != [] && m'.Sound()
    requires FrameFits(f, l, |Outer(m, z)|, |z.levels| - 1)
    requires |m.stack| == |z.levels|
    requires m' == m.(tape := m'.tape, stack := m.stack[..|z.levels| - 1] + [f])
    requires m'.tape == Outer(m, z) + LevelTape(l, |z.levels| - 1)
    ensures Holds(m', z.(levels := z.levels[..|z.levels| - 1] + [l]))
  {
    hide LevelTape, DoneTape, FrameFits;
    var k := |z.levels| - 1;
    var z' := z.(levels := z.levels[..k] + [l]);
    Relevelled(z.levels, l);
    FramesRelevelled(m.stack, z.levels, |DoneTape(z, m.region)|, f, l);
    SameDone(z, z', m.region);
    var d, a, x := DoneTape(z, m.region), LevelsTape(z.levels[..k]), LevelTape(l, k);
    assert d + a + x == d + (a + x);
  }

  lemma {:induction false} StartedTape(m: Machine, z: Growing, l: Level, l': Level, k: nat)
    requires Holds(m, z) && z.levels != [] && m.stack != [] && k == |z.levels| - 1 && l == z.levels[k]
    requires l' == Ended(l).(current := Some([])) && FrameFits(m.Innermost(), l, |Outer(m, z)|, k)
    requires InstanceClosed(m).tape == Outer(m, z) + LevelTape(Ended(l), k)
    ensures InstanceClosed(m).tape + [INSTANCE.(depth := k + 1)] == Outer(m, z) + LevelTape(l', k)
    ensures LevelTokens(l') == LevelTokens(Ended(l))
    ensures var f := m.Innermost().(count := m.Innermost().count + 1, instance := Some(|m.tape|));
            FrameFits(f, l', |Outer(m, z)|, k)
  {
    hide Holds, Outer, InstanceClosed, FlatNode;
    var o, e, kids := Outer(m, z), [GroupEntry(l.tag).(depth := k)], Ended(l).kids;
    assert Flat([], k + 1) == [] && Tokens([]) == [];
    hide Flat, Tokens, GroupEntry;
    assert o + (e + Flat(kids, k + 1) + []) + [INSTANCE.(depth := k + 1)]
           == o + (e + Flat(kids, k + 1) + ([INSTANCE.(depth := k + 1)] + []));
    assert |m.tape| == |InstanceClosed(m).tape|;
  }

  lemma {:induction false} ReadSame(z: Growing, outer: seq<Level>, l: Level, l': Level)
    requires z.levels == outer + [l] && LevelTokens(l') == LevelTokens(l)
    ensures ReadTokens(z.(levels := outer + [l'])) == ReadTokens(z)
  {
    hide LevelTokens, Tokens;
    Relevelled(z.levels, l');
    assert z.levels[..|z.levels| - 1] == outer;
  }

  /** The innermost group, finished. */
  function Finish(l: Level): Node {
    Node(GroupEntry(l.tag), Ended(l).kids)
  }

  /** The innermost group is finished, and its node stands where the group was opened. */
  predicate Left(z: Growing, r: Region, z': Growing) {
    && z.levels != []
    && var k := |z.levels| - 1;
       var z1 := z.(levels := z.levels[..k]);
       Placeable(z1) && z' == Added(z1, r, Finish(z.levels[k]))
  }

  lemma {:induction false} FinishTokens(l: Level)
    requires |Ended(l).kids| == l.declared && (l.current.None? ==> l.kids == [])
    ensures NodeTokens(Finish(l)) == LevelTokens(l)
  {
    EndedTokens(l);
    assert LevelTokens(Ended(l)) == [CountToken(l.tag, l.declared)] + InstanceTokens(Ended(l).kids) + [];
  }

  /** The machine and the trees without the innermost group. */
  lemma {:induction false} OuterHolds(m: Machine, z: Growing)
    requires Holds(m, z) && z.levels != [] && m.stack != []
    ensures var k := |z.levels| - 1;
            var c, z1 := m.(tape := Outer(m, z), stack := m.stack[..k]), z.(levels := z.levels[..k]);
            (c.Sound() ==> Holds(c, z1)) && Placeable(z1)
  {
    hide LevelTape, FrameFits, DoneTape, LevelsTape;
    var k := |z.levels| - 1;
    FramesPopped(m.stack, z.levels, |DoneTape(z, m.region)|);
    SameDone(z, z.(levels := z.levels[..k]), m.region);
  }

  lemma {:induction false} FramesPopped(stack: seq<Frame>, ls: seq<Level>, base: nat)
    requires FramesFit(stack, ls, base) && ls != []
    ensures FramesFit(stack[..|ls| - 1], ls[..|ls| - 1], base)
    ensures |ls| > 1 ==> ls[|ls| - 2].current.Some?
  {
    hide FrameFits, LevelsTape;
  }

  lemma {:induction false} FramesSound(stack: seq<Frame>, ls: seq<Level>, base: nat, size: nat)
    requires FramesFit(stack, ls, base) && size == base + |LevelsTape(ls)|
    ensures forall k :: 0 <= k < |stack| ==>
              stack[k].entry < size && (stack[k].instance.Some? ==> stack[k].instance.value < size)
    decreases |ls|
  {
    if ls != [] {
      var j := |ls| - 1;
      FramesSound(stack[..j], ls[..j], base, base + |LevelsTape(ls[..j])|);
      forall k | 0 <= k < |stack|
        ensures stack[k].entry < size && (stack[k].instance.Some? ==> stack[k].instance.value < size)
      {
        assert k < j ==> stack[..j][k] == stack[k];
      }
    }
  }

  /** Closing the innermost group finishes its node. */
  lemma {:induction false} ClosedHolds(m: Machine, z: Growing, m': Machine) returns (z': Growing)
    requires Holds(m, z) && z.levels != [] && m.stack != [] && GroupClosed(m) == Ok(m')
    ensures Holds(m', z') && Placeable(z') && ReadTokens(z') == ReadTokens(z) && Left(z, m.region, z')
    ensures GrowingShaped(z) ==> GrowingShaped(z')
  {
    hide Outer, LevelTape, LevelTokens, InstanceClosed, ReadTokens, Flat, FlatNode, Holds, NodeTokens;
    HoldsSound(m, z);
    var k, l := |z.levels| - 1, z.levels[|z.levels| - 1];
    var n, z1 := Finish(l), z.(levels := z.levels[..k]);
    var c := m.(tape := Outer(m, z), stack := m.stack[..k]);
    OuterIs(m, z);
    OuterHolds(m, z);
    OuterSound(m, z);
    InstanceEnds(m, z);
    FinishTape(l, k, Outer(m, z));
    DepthIs(c, z1);
    GroupCloses(c, n, m);
    OneClosed(m, k);
    AddedHolds(c, z1, n);
    z' := Added(z1, m.region, n);
    FinishTokens(l);
    ReadFinished(z, l, n);
    if GrowingShaped(z) {
      EndedShaped(l);
      NodeAddedShaped(z1, m.region, n);
    }
  }

  lemma {:induction false} OneClosed(m: Machine, k: nat)
    requires m.Sound() && |m.stack| == k + 1
    ensures ClosedTo(m, k) == GroupClosed(m)
  {
  }

  lemma {:induction false} OuterSound(m: Machine, z: Growing)
    requires Holds(m, z) && z.levels != [] && m.stack != []
    ensures m.(tape := Outer(m, z), stack := m.stack[..|z.levels| - 1]).Sound()
  {
    hide LevelTape, FrameFits, DoneTape;
    var k := |z.levels| - 1;
    FramesSound(m.stack[..k], z.levels[..k], |DoneTape(z, m.region)|, |Outer(m, z)|);
  }

  lemma {:induction false} FinishTape(l: Level, k: nat, o: seq<Entry>)
    ensures o + LevelTape(Ended(l), k) == o + [Finish(l).entry.(depth := k)] + Flat(Finish(l).kids, k + 1)
  {
    hide Flat, GroupEntry;
    var e, x := [GroupEntry(l.tag).(depth := k)], Flat(Ended(l).kids, k + 1);
    assert o + (e + x + []) == o + e + x;
  }

  lemma {:induction false} ReadFinished(z: Growing, l: Level, n: Node)
    requires z.levels != [] && l == z.levels[|z.levels| - 1] && NodeTokens(n) == LevelTokens(l)
    ensures ReadTokens(z.(levels := z.levels[..|z.levels| - 1])) + NodeTokens(n) == ReadTokens(z)
  {
    hide LevelTokens, NodeTokens, Tokens;
    Relevelled(z.levels, l);
    var k := |z.levels| - 1;
    var a, x, y := Tokens(z.h) + Tokens(z.b) + Tokens(z.t), LevelsTokens(z.levels[..k]), LevelTokens(l);
    assert a + x + y == a + (x + y);
  }
}
