/**
 * What the encoder writes, the parser reads back (message/encode.rs, message/parse.rs): for trees
 * that conform to the dictionary, nested to any depth, the stack machine rebuilds the tape.
 */
module RoundTrip {
  import opened Tape
  import opened Document
  import opened Groups
  import opened Parsing

  // ---------------------------------------------------------------------
  // Conforming trees, and the fields they are written as
  // ---------------------------------------------------------------------

  /** What a field, or a group with so many instances, is written as. */
  function Written(n: Node): Token {
    if n.entry.kind.Group? then CountToken(n.entry.tag, |n.kids|)
    else Token(n.entry.(depth := 0), None)
  }

  /** The fields that nodes side by side are written as. */
  function Tokens(ns: seq<Node>): seq<Token> {
    if ns == [] then [] else NodeTokens(ns[0]) + Tokens(ns[1..])
  }

  function NodeTokens(n: Node): (ts: seq<Token>)
    ensures ts != [] && ts[0] == Written(n)
  {
    if n.entry.kind.Group? then [Written(n)] + InstanceTokens(n.kids) else [Written(n)]
  }

  function InstanceTokens(ns: seq<Node>): seq<Token> {
    if ns == [] then [] else Tokens(ns[0].kids) + InstanceTokens(ns[1..])
  }

  /** A field that belongs to none of the groups open once a node has been written. */
  predicate Clear(dict: Dict, n: Node, ctx: Context, tag: nat) {
    n.entry.kind.Group? && n.kids != [] && Opened(dict, ctx, n.entry.tag).Some? ==>
      var g := Opened(dict, ctx, n.entry.tag).value;
      Skips(dict, g, tag) && ClearBehind(dict, n.kids[|n.kids| - 1].kids, Within(g), tag)
  }

  predicate ClearBehind(dict: Dict, ns: seq<Node>, ctx: Context, tag: nat) {
    ns != [] ==> Clear(dict, ns[|ns| - 1], ctx, tag)
  }

  /** Nodes that can stand side by side: each fits there, and the next is not taken for part of the one before. */
  predicate Fit(dict: Dict, ns: seq<Node>, ctx: Context) {
    ns != [] ==>
      && NodeFit(dict, ns[0], ctx)
      && (|ns| > 1 ==> Clear(dict, ns[0], ctx, ns[1].entry.tag))
      && Fit(dict, ns[1..], ctx)
  }

  predicate NodeFit(dict: Dict, n: Node, ctx: Context) {
    var found := Opened(dict, ctx, n.entry.tag);
    if n.entry.kind.Group? then
      && found.Some?
      && n.entry == GroupEntry(n.entry.tag)
      && InstancesFit(dict, n.kids, found.value)
    else
      && n.entry.IsField()
      && n.kids == []
      && (n.entry.kind.Field? ==> found.None?)
  }

  /** Instances of a group: none is empty, and each starts where the delimiter comes. */
  predicate InstancesFit(dict: Dict, ns: seq<Node>, g: nat) {
    ns != [] ==>
      && ns[0].entry == INSTANCE
      && ns[0].kids != []
      && ns[0].kids[0].entry.tag == dict.groups(g).delimiter
      && Members(dict, ns[0].kids[1..], g)
      && Fit(dict, ns[0].kids, Within(g))
      && (|ns| > 1 ==> ClearBehind(dict, ns[0].kids, Within(g), dict.groups(g).delimiter))
      && InstancesFit(dict, ns[1..], g)
  }

  /** Members of a group's instance, other than the first. */
  predicate Members(dict: Dict, ns: seq<Node>, g: nat) {
    forall i :: 0 <= i < |ns| ==>
      ns[i].entry.tag != dict.groups(g).delimiter && ns[i].entry.tag in dict.groups(g).members
  }

  // ---------------------------------------------------------------------
  // Running the machine on a tree
  // ---------------------------------------------------------------------

  /** After a block, or part of one: once the groups it left open are closed, the tape has grown by its layout. */
  predicate Grew(m: Machine, c: Machine, layout: seq<Entry>) {
    && m.Sound()
    && |c.stack| <= |m.stack|
    && ClosedTo(m, |c.stack|) == Ok(c.(tape := c.tape + layout))
  }

  /** No field that is clear of the nodes belongs to a group they left open. */
  ghost predicate Leaves(dict: Dict, m: Machine, level: nat, ns: seq<Node>, ctx: Context) {
    forall tag :: ClearBehind(dict, ns, ctx, tag) ==> NoneTakes(dict, m, level, tag)
  }

  lemma {:induction false} ClosedAlready(c: Machine)
    requires c.Sound()
    ensures Grew(c, c, [])
    ensures ClosedTo(c, |c.stack|) == Ok(c)
  {
    assert c.tape + [] == c.tape;
  }

  /** A field written in a block: the groups left open by the one before are closed, and it is placed. */
  lemma {:induction false} NextSettled(dict: Dict, m: Machine, c: Machine, tag: nat)
    requires m.Sound() && c.Sound() && |c.stack| <= |m.stack| && ClosedTo(m, |c.stack|) == Ok(c)
    requires NoneTakes(dict, m, |c.stack|, tag)
    ensures Settled(dict, m, tag) == Settled(dict, c, tag)
  {
    SettledThrough(dict, m, |c.stack|, tag);
  }

  /** A member of the innermost group, in one of its instances, stays there. */
  lemma {:induction false} MemberSettled(dict: Dict, c: Machine, tag: nat)
    requires c.Sound() && c.stack != [] && c.Innermost().instance.Some?
    requires tag != dict.groups(c.Innermost().group).delimiter && tag in dict.groups(c.Innermost().group).members
    ensures Settled(dict, c, tag) == Ok(c)
  {
  }

  /** A group's entry, once the group is closed behind its instances. */
  lemma {:induction false} GroupCloses(c: Machine, n: Node, c': Machine)
    requires c.Sound() && n.entry.kind.Group? && n.entry == GroupEntry(n.entry.tag)
    requires c'.Sound() && |c'.stack| == |c.stack| + 1 && c'.stack[..|c.stack|] == c.stack
    requires var f := c'.Innermost(); f.entry == |c.tape| && f.count == f.declared == |n.kids|
    requires InstanceClosed(c').tape == c.tape + [n.entry.(depth := c.Depth())] + Flat(n.kids, c.Depth() + 1)
    requires c' == c.(tape := c'.tape, stack := c'.stack)
    ensures ClosedTo(c', |c.stack|) == Ok(c.(tape := c.tape + FlatNode(n, c.Depth())))
  {
    hide Flat, InstanceClosed;
    var d, k := c.Depth(), |c.tape|;
    var e, rest := n.entry.(depth := d), Flat(n.kids, d + 1);
    var tape := c.tape + [e] + rest;
    UpdateWithin(c.tape, e, rest, e.(len := 1 + |rest|, off := |n.kids|));
    assert tape[k] == e;
    assert GroupClosed(c') == Ok(c.(tape := c.tape + [Head(n, d)] + rest));
    assert c.tape + [Head(n, d)] + rest == c.tape + ([Head(n, d)] + rest);
  }

  /** An instance's entry, once the instance ends. */
  lemma {:induction false} InstanceCloses(m: Machine, tape: seq<Entry>, kids: seq<Node>, d: nat)
    requires m.Sound() && m.stack != [] && m.Innermost().instance == Some(|tape|)
    requires m.tape == tape + [INSTANCE.(depth := d)] + Flat(kids, d)
    ensures InstanceClosed(m).tape == tape + FlatNode(Node(INSTANCE, kids), d)
  {
    hide Flat;
    var e, rest := INSTANCE.(depth := d), Flat(kids, d);
    UpdateWithin(tape, e, rest, e.(len := 1 + |rest|));
    assert (tape + [e] + rest)[|tape|] == e;
    assert tape + [e.(len := 1 + |rest|)] + rest == tape + ([e.(len := 1 + |rest|)] + rest);
  }

  /** A field leaves nothing open. */
  lemma {:induction false} FieldRuns(dict: Dict, c: Machine, n: Node) returns (m: Machine)
    requires c.Sound() && NodeFit(dict, n, c.Context()) && !n.entry.kind.Group?
    ensures Then(dict, Placed(dict, c, Written(n)), NodeTokens(n)[1..]) == Ok(m)
    ensures Grew(m, c, FlatNode(n, c.Depth()))
    ensures Leaves(dict, m, |c.stack|, [n], c.Context())
  {
    m := c.(tape := c.tape + [n.entry.(depth := c.Depth())]);
    assert Placed(dict, c, Written(n)) == Ok(m);
    assert NodeTokens(n)[1..] == [];
    assert FlatNode(n, c.Depth()) == [n.entry.(depth := c.Depth())];
  }

  /** Neither does a group without instances. */
  lemma {:induction false} HollowRuns(dict: Dict, c: Machine, n: Node) returns (m: Machine)
    requires c.Sound() && NodeFit(dict, n, c.Context()) && n.entry.kind.Group? && n.kids == []
    ensures Then(dict, Placed(dict, c, Written(n)), NodeTokens(n)[1..]) == Ok(m)
    ensures Grew(m, c, FlatNode(n, c.Depth()))
    ensures Leaves(dict, m, |c.stack|, [n], c.Context())
  {
    m := c.(tape := c.tape + [n.entry.(depth := c.Depth())]);
    assert Placed(dict, c, Written(n)) == Ok(m);
    assert NodeTokens(n)[1..] == [];
    assert FlatNode(n, c.Depth()) == [n.entry.(depth := c.Depth())];
  }

  /** A node written where it fits: nodes nested in it to any depth come out laid out. */
  lemma {:induction false} NodeRuns(dict: Dict, c: Machine, n: Node) returns (m: Machine)
    requires c.Sound() && NodeFit(dict, n, c.Context())
    ensures Then(dict, Placed(dict, c, Written(n)), NodeTokens(n)[1..]) == Ok(m)
    ensures Grew(m, c, FlatNode(n, c.Depth()))
    ensures Leaves(dict, m, |c.stack|, [n], c.Context())
    decreases NodeSize(n), 0
  {
    if !n.entry.kind.Group? {
      m := FieldRuns(dict, c, n);
    } else if n.kids == [] {
      m := HollowRuns(dict, c, n);
    } else {
      var g, d := Opened(dict, c.Context(), n.entry.tag).value, c.Depth();
      var f := Frame(g, |c.tape|, None, |n.kids|, 0, d);
      var c1 := c.(tape := c.tape + [n.entry.(depth := d)], stack := c.stack + [f]);
      assert Placed(dict, c, Written(n)) == Ok(c1);
      ClosedAlready(c1);
      var c';
      m, c' := InstancesRun(dict, c1, c1, n.kids, g);
      assert NodeTokens(n)[1..] == InstanceTokens(n.kids);
      assert InstanceClosed(c1).tape == c1.tape;
      GroupCloses(c, n, c');
      ClosedThrough(m, |c1.stack|, |c.stack|);
      GroupLeaves(dict, c, n, g, m);
    }
  }

  lemma {:induction false} GroupLeaves(dict: Dict, c: Machine, n: Node, g: nat, m: Machine)
    requires n.entry.kind.Group? && n.kids != [] && Opened(dict, c.Context(), n.entry.tag) == Some(g)
    requires |m.stack| > |c.stack| && m.stack[|c.stack|].group == g
    requires Leaves(dict, m, |c.stack| + 1, n.kids[|n.kids| - 1].kids, Within(g))
    ensures Leaves(dict, m, |c.stack|, [n], c.Context())
  {
    forall tag | ClearBehind(dict, [n], c.Context(), tag)
      ensures NoneTakes(dict, m, |c.stack|, tag)
    {
      assert Clear(dict, n, c.Context(), tag);
      assert ClearBehind(dict, n.kids[|n.kids| - 1].kids, Within(g), tag);
      assert NoneTakes(dict, m, |c.stack| + 1, tag);
    }
  }

  /** An instance's fields, from the state its delimiter leaves. */
  lemma {:induction false} BlockRuns(dict: Dict, c: Machine, ns: seq<Node>) returns (m: Machine)
    requires c.Sound() && c.stack != [] && c.Innermost().instance.Some?
    requires ns != [] && Fit(dict, ns, c.Context()) && Members(dict, ns[1..], c.Innermost().group)
    ensures Then(dict, Placed(dict, c, Written(ns[0])), Tokens(ns)[1..]) == Ok(m)
    ensures Grew(m, c, Flat(ns, c.Depth()))
    ensures Leaves(dict, m, |c.stack|, ns, c.Context())
    decreases Size(ns), 1
  {
    m := NodeRuns(dict, c, ns[0]);
    if |ns| == 1 {
      OneRuns(ns, c.Depth());
    } else {
      hide Grew, Leaves, FlatNode, Flat, Then, Placed, Clear;
      var m1 := m;
      var c1 := c.(tape := c.tape + FlatNode(ns[0], c.Depth()));
      m := BlockRuns(dict, c1, ns[1..]);
      BlockStep(dict, c, c1, m1, ns);
      BlockGrew(dict, c, c1, m, ns);
    }
  }

  lemma {:induction false} OneRuns(ns: seq<Node>, d: nat)
    requires |ns| == 1
    ensures ns == [ns[0]] && Tokens(ns)[1..] == NodeTokens(ns[0])[1..] && Flat(ns, d) == FlatNode(ns[0], d)
  {
    assert ns[1..] == [];
    FlatOne(ns[0], d);
  }

  /** From one node of a block to the next. */
  lemma {:induction false} BlockStep(dict: Dict, c: Machine, c1: Machine, m1: Machine, ns: seq<Node>)
    requires c.Sound() && c.stack != [] && c.Innermost().instance.Some?
    requires |ns| > 1 && Fit(dict, ns, c.Context()) && Members(dict, ns[1..], c.Innermost().group)
    requires c1 == c.(tape := c.tape + FlatNode(ns[0], c.Depth())) && c1.Sound()
    requires Then(dict, Placed(dict, c, Written(ns[0])), NodeTokens(ns[0])[1..]) == Ok(m1)
    requires Grew(m1, c, FlatNode(ns[0], c.Depth())) && Leaves(dict, m1, |c.stack|, [ns[0]], c.Context())
    ensures Then(dict, Placed(dict, c, Written(ns[0])), Tokens(ns)[1..])
            == Then(dict, Placed(dict, c1, Written(ns[1])), Tokens(ns[1..])[1..])
  {
    hide Placed, FlatNode, Settled, ClosedTo;
    var tag, a, b := ns[1].entry.tag, NodeTokens(ns[0])[1..], Tokens(ns[1..]);
    assert Tokens(ns)[1..] == a + b;
    RanOn(dict, Placed(dict, c, Written(ns[0])).value, a, b);
    assert ClearBehind(dict, [ns[0]], c.Context(), tag);
    NextSettled(dict, m1, c1, tag);
    assert ns[1..][0] == ns[1];
    MemberSettled(dict, c1, tag);
    assert b[0] == Written(ns[1]) && b[0].entry.tag == tag;
  }

  lemma {:induction false} BlockGrew(dict: Dict, c: Machine, c1: Machine, m: Machine, ns: seq<Node>)
    requires ns != [] && c1 == c.(tape := c.tape + FlatNode(ns[0], c.Depth()))
    requires |ns| > 1 && Grew(m, c1, Flat(ns[1..], c1.Depth())) && Leaves(dict, m, |c1.stack|, ns[1..], c1.Context())
    ensures Grew(m, c, Flat(ns, c.Depth()))
    ensures Leaves(dict, m, |c.stack|, ns, c.Context())
  {
    hide FlatNode, ClosedTo;
    assert c.tape + FlatNode(ns[0], c.Depth()) + Flat(ns[1..], c.Depth()) == c.tape + Flat(ns, c.Depth());
    assert forall tag :: ClearBehind(dict, ns, c.Context(), tag) ==> ClearBehind(dict, ns[1..], c.Context(), tag);
  }

  /** The same group, with more instances behind it. */
  predicate SameGroup(c: Machine, c': Machine, more: nat) {
    && c.stack != [] && |c'.stack| == |c.stack|
    && c'.stack[..|c.stack| - 1] == c.stack[..|c.stack| - 1]
    && c' == c.(tape := c'.tape, stack := c'.stack)
    && var f, f' := c.Innermost(), c'.Innermost();
       f' == f.(count := f.count + more, instance := f'.instance)
  }

  /** Where a group's next instance may come: `c` is the machine once groups nested in the last one are closed. */
  predicate AtInstances(dict: Dict, m: Machine, c: Machine, ns: seq<Node>, g: nat) {
    && m.Sound() && c.Sound() && c.stack != [] && c.Innermost().group == g
    && |c.stack| <= |m.stack| && ClosedTo(m, |c.stack|) == Ok(c)
    && InstancesFit(dict, ns, g)
    && (ns != [] ==> NoneTakes(dict, m, |c.stack|, dict.groups(g).delimiter))
    && c.Innermost().count + |ns| == c.Innermost().declared
  }

  /** The machine once they have all come. */
  ghost predicate PastInstances(dict: Dict, m: Machine, c: Machine, ns: seq<Node>, g: nat, m': Machine, c': Machine)
    requires m.Sound() && c.Sound()
  {
    && Ran(dict, m, InstanceTokens(ns)) == Ok(m')
    && m'.Sound() && c'.Sound() && SameGroup(c, c', |ns|)
    && |c.stack| <= |m'.stack| && ClosedTo(m', |c.stack|) == Ok(c')
    && InstanceClosed(c').tape == InstanceClosed(c).tape + Flat(ns, c.Innermost().depth + 1)
    && (ns != [] ==> Leaves(dict, m', |c.stack|, ns[|ns| - 1].kids, Within(g)))
  }

  /** A group's instances, one after the other. */
  lemma {:induction false} InstancesRun(dict: Dict, m: Machine, c: Machine, ns: seq<Node>, g: nat)
    returns (m': Machine, c': Machine)
    requires AtInstances(dict, m, c, ns, g)
    ensures PastInstances(dict, m, c, ns, g, m', c')
    decreases Size(ns), 2
  {
    if ns == [] {
      m', c' := m, c;
      assert InstanceClosed(c).tape + [] == InstanceClosed(c).tape;
    } else {
      hide Grew, Leaves, FlatNode, Flat, Then, Placed, Clear, ClosedTo, Fit, InstanceTokens, Begun, Ran, InstanceClosed;
      var kids, s := ns[0].kids, Begun(c);
      InstanceSmaller(ns);
      BeginsBelow(c, s);
      var m1 := BlockRuns(dict, s, kids);
      var c1 := s.(tape := s.tape + Flat(kids, s.Depth()));
      FirstInstance(dict, m, c, s, m1, c1, ns, g);
      m', c' := InstancesRun(dict, m1, c1, ns[1..], g);
      MoreInstances(dict, m, c, m1, c1, ns, g, m', c');
    }
  }

  /** The first of them. */
  lemma {:induction false} FirstInstance(dict: Dict, m: Machine, c: Machine, s: Machine, m1: Machine, c1: Machine,
                                         ns: seq<Node>, g: nat)
    requires AtInstances(dict, m, c, ns, g) && ns != [] && s == Begun(c)
    requires Then(dict, Placed(dict, s, Written(ns[0].kids[0])), Tokens(ns[0].kids)[1..]) == Ok(m1)
    requires Grew(m1, s, Flat(ns[0].kids, s.Depth())) && Leaves(dict, m1, |s.stack|, ns[0].kids, s.Context())
    requires c1 == s.(tape := s.tape + Flat(ns[0].kids, s.Depth()))
    ensures AtInstances(dict, m1, c1, ns[1..], g) && SameGroup(c, c1, 1)
    ensures Ran(dict, m, InstanceTokens(ns)) == Ran(dict, m1, InstanceTokens(ns[1..]))
    ensures InstanceClosed(c1).tape == InstanceClosed(c).tape + FlatNode(ns[0], c.Innermost().depth + 1)
    ensures Leaves(dict, m1, |c.stack|, ns[0].kids, Within(g))
  {
    hide Grew, Leaves, FlatNode, Flat, Then, Placed, Clear, ClosedTo, Fit, InstanceTokens, Begun, Ran;
    BeginsBelow(c, s);
    GrewTo(m1, s, Flat(ns[0].kids, s.Depth()));
    InstanceStep(dict, m, c, s, m1, ns, g);
    InstanceCloses(c1, InstanceClosed(c).tape, ns[0].kids, s.Depth());
    assert Node(INSTANCE, ns[0].kids) == ns[0];
    if |ns| > 1 {
      LeavesBehind(dict, m1, |c.stack|, ns[0].kids, Within(g), dict.groups(g).delimiter);
    }
  }

  /** And the others. */
  lemma {:induction false} MoreInstances(dict: Dict, m: Machine, c: Machine, m1: Machine, c1: Machine, ns: seq<Node>,
                                         g: nat, m': Machine, c': Machine)
    requires m.Sound() && c.Sound() && m1.Sound() && c1.Sound() && ns != [] && SameGroup(c, c1, 1)
    requires Ran(dict, m, InstanceTokens(ns)) == Ran(dict, m1, InstanceTokens(ns[1..]))
    requires InstanceClosed(c1).tape == InstanceClosed(c).tape + FlatNode(ns[0], c.Innermost().depth + 1)
    requires Leaves(dict, m1, |c.stack|, ns[0].kids, Within(g)) && (|ns| == 1 ==> m' == m1)
    requires PastInstances(dict, m1, c1, ns[1..], g, m', c')
    ensures PastInstances(dict, m, c, ns, g, m', c')
  {
    hide Leaves, FlatNode, ClosedTo, InstanceTokens, Ran, InstanceClosed;
    var tape, d := InstanceClosed(c).tape, c.Innermost().depth + 1;
    assert tape + FlatNode(ns[0], d) + Flat(ns[1..], d) == tape + Flat(ns, d);
    assert |ns| > 1 ==> ns[1..][|ns[1..]| - 1] == ns[|ns| - 1];
  }

  lemma {:induction false} InstanceSmaller(ns: seq<Node>)
    requires ns != [] && ns[0].entry == INSTANCE
    ensures Size(ns[0].kids) < Size(ns) && Size(ns[1..]) < Size(ns)
  {
  }

  lemma {:induction false} BeginsBelow(c: Machine, s: Machine)
    requires c.Sound() && c.stack != [] && s == Begun(c)
    ensures |s.stack| == |c.stack| && s.Context() == c.Context() && SameGroup(c, s, 1)
    ensures s.tape == InstanceClosed(c).tape + [INSTANCE.(depth := s.Depth())] && |InstanceClosed(c).tape| == |c.tape|
  {
  }

  lemma {:induction false} GrewTo(m: Machine, c: Machine, layout: seq<Entry>)
    requires Grew(m, c, layout)
    ensures m.Sound() && |c.stack| <= |m.stack| && ClosedTo(m, |c.stack|) == Ok(c.(tape := c.tape + layout))
    ensures c.(tape := c.tape + layout).Sound()
  {
  }

  lemma {:induction false} LeavesBehind(dict: Dict, m: Machine, level: nat, ns: seq<Node>, ctx: Context, tag: nat)
    requires Leaves(dict, m, level, ns, ctx) && ClearBehind(dict, ns, ctx, tag)
    ensures NoneTakes(dict, m, level, tag)
  {
  }

  /** The state an instance's delimiter leaves. */
  function Begun(c: Machine): (s: Machine)
    requires c.Sound() && c.stack != []
    ensures s.Sound() && s.stack != [] && s.Innermost().instance == Some(|c.tape|)
    ensures s.Innermost().group == c.Innermost().group && s.Depth() == c.Innermost().depth + 1
  {
    var f := c.Innermost();
    var f' := f.(count := f.count + 1, instance := Some(|c.tape|));
    c.(tape := InstanceClosed(c).tape + [INSTANCE.(depth := f.depth + 1)], stack := c.stack[..|c.stack| - 1] + [f'])
  }

  /** From one instance to the next. */
  lemma {:induction false} InstanceStep(dict: Dict, m: Machine, c: Machine, s: Machine, m1: Machine, ns: seq<Node>,
                                        g: nat)
    requires m.Sound() && c.Sound() && c.stack != [] && c.Innermost().group == g && s == Begun(c)
    requires |c.stack| <= |m.stack| && ClosedTo(m, |c.stack|) == Ok(c)
    requires ns != [] && InstancesFit(dict, ns, g) && NoneTakes(dict, m, |c.stack|, dict.groups(g).delimiter)
    requires c.Innermost().count < c.Innermost().declared
    requires Then(dict, Placed(dict, s, Written(ns[0].kids[0])), Tokens(ns[0].kids)[1..]) == Ok(m1) && m1.Sound()
    ensures Ran(dict, m, InstanceTokens(ns)) == Ran(dict, m1, InstanceTokens(ns[1..]))
  {
    hide Placed, FlatNode, ClosedTo, Fit;
    var kids, tag := ns[0].kids, dict.groups(g).delimiter;
    var ts := Tokens(kids);
    NextSettled(dict, m, c, tag);
    assert Settled(dict, c, tag) == Ok(s);
    assert ts[0] == Written(kids[0]) && ts[0].entry.tag == tag;
    assert Ran(dict, m, ts) == Ok(m1);
    RanOn(dict, m, ts, InstanceTokens(ns[1..]));
  }

  // ---------------------------------------------------------------------
  // Regions
  // ---------------------------------------------------------------------

  /** A tag that a region goes on with. */
  predicate Stays(dict: Dict, r: Region, tag: nat) {
    match r
    case Header => tag in dict.headerTags
    case Body => tag !in dict.headerTags && tag !in dict.trailerTags
    case Trailer => tag in dict.trailerTags
  }

  predicate AllStay(dict: Dict, r: Region, ns: seq<Node>) {
    forall i :: 0 <= i < |ns| ==> Stays(dict, r, ns[i].entry.tag)
  }

  lemma {:induction false} StayEntered(dict: Dict, c: Machine, tag: nat)
    requires c.stack == [] && Stays(dict, c.region, tag)
    ensures RegionEntered(dict, c, tag) == Ok(c)
  {
  }

  /** A region's nodes, from the state its first one's tag leaves. */
  lemma {:induction false} RegionRuns(dict: Dict, m: Machine, c: Machine, ns: seq<Node>, c0: Machine)
    returns (m': Machine)
    requires m.Sound() && c.Sound() && c.stack == [] && ClosedTo(m, 0) == Ok(c)
    requires ns != [] && RegionEntered(dict, c, ns[0].entry.tag) == Ok(c0) && c0.Sound()
    requires AllStay(dict, c0.region, ns) && Fit(dict, ns, c0.Context()) && NoneTakes(dict, m, 0, ns[0].entry.tag)
    ensures Ran(dict, m, Tokens(ns)) == Ok(m')
    ensures Grew(m', c0, Flat(ns, 0)) && Leaves(dict, m', 0, ns, c0.Context())
    decreases |ns|
  {
    hide Grew, Leaves, FlatNode, Flat, Then, Placed, Clear, ClosedTo, RegionEntered, Ran, Settled;
    m' := NodeRuns(dict, c0, ns[0]);
    RegionStep(dict, m, c, ns, c0, m');
    if |ns| == 1 {
      OneRuns(ns, 0);
      NothingRan(dict, m', ns[1..]);
    } else {
      var m1 := m';
      var c1 := c0.(tape := c0.tape + FlatNode(ns[0], 0));
      GrewTo(m1, c0, FlatNode(ns[0], 0));
      StayEntered(dict, c1, ns[1].entry.tag);
      LeavesBehind(dict, m1, 0, [ns[0]], c0.Context(), ns[1].entry.tag);
      m' := RegionRuns(dict, m1, c1, ns[1..], c1);
      BlockGrew(dict, c0, c1, m', ns);
    }
  }

  lemma {:induction false} NothingRan(dict: Dict, m: Machine, ns: seq<Node>)
    requires m.Sound() && ns == []
    ensures Ran(dict, m, Tokens(ns)) == Ok(m)
  {
  }

  lemma {:induction false} RegionStep(dict: Dict, m: Machine, c: Machine, ns: seq<Node>, c0: Machine, m1: Machine)
    requires m.Sound() && c.Sound() && c.stack == [] && ClosedTo(m, 0) == Ok(c)
    requires ns != [] && RegionEntered(dict, c, ns[0].entry.tag) == Ok(c0) && c0.Sound()
    requires NoneTakes(dict, m, 0, ns[0].entry.tag)
    requires Then(dict, Placed(dict, c0, Written(ns[0])), NodeTokens(ns[0])[1..]) == Ok(m1) && m1.Sound()
    ensures Ran(dict, m, Tokens(ns)) == Ran(dict, m1, Tokens(ns[1..]))
  {
    hide Placed, ClosedTo, RegionEntered, Flat, Clear;
    var tag, a, b := ns[0].entry.tag, NodeTokens(ns[0]), Tokens(ns[1..]);
    NextSettled(dict, m, c, tag);
    assert Settled(dict, m, tag) == Ok(c);
    assert a[0] == Written(ns[0]) && a[0].entry.tag == tag;
    assert Pushed(dict, m, a[0]) == Placed(dict, c0, a[0]);
    assert Ran(dict, m, a) == Ok(m1);
    RanOn(dict, m, a, b);
  }

  // ---------------------------------------------------------------------
  // Whole messages
  // ---------------------------------------------------------------------

  /** A message that can be read back: its regions fit, and each can be told from the one before. */
  predicate Conforms(dict: Dict, h: seq<Node>, b: seq<Node>, t: seq<Node>) {
    && AllStay(dict, Header, h) && AllStay(dict, Body, b) && AllStay(dict, Trailer, t)
    && Fit(dict, h, Top(true)) && Fit(dict, b, Top(false)) && Fit(dict, t, Top(false))
    && (b != [] ==> ClearBehind(dict, h, Top(true), b[0].entry.tag))
    && (t != [] ==> ClearBehind(dict, b, Top(false), t[0].entry.tag) && t[0].entry.tag !in dict.headerTags)
    && (b == [] && t != [] ==> ClearBehind(dict, h, Top(true), t[0].entry.tag))
  }

  /** The machine between regions: what is open would be closed by any tag that is clear of the last one. */
  ghost predicate Between(dict: Dict, m: Machine, c: Machine, last: seq<Node>, ctx: Context) {
    && m.Sound() && c.Sound() && c.stack == [] && ClosedTo(m, 0) == Ok(c)
    && Leaves(dict, m, 0, last, ctx)
  }

  lemma {:induction false} FieldsBetween(dict: Dict, m: Machine, c: Machine, ns: seq<Node>)
    requires c.stack == [] && Grew(m, c, Flat(ns, 0)) && Leaves(dict, m, 0, ns, c.Context())
    ensures Between(dict, m, c.(tape := c.tape + Flat(ns, 0)), ns, c.Context())
  {
    hide Leaves, Flat, ClosedTo;
  }

  /** Once the header has come. */
  lemma {:induction false} HeaderRuns(dict: Dict, h: seq<Node>) returns (m: Machine)
    requires AllStay(dict, Header, h) && Fit(dict, h, Top(true))
    ensures EMPTY.Sound() && Ran(dict, EMPTY, Tokens(h)) == Ok(m)
    ensures Between(dict, m, EMPTY.(tape := Flat(h, 0)), h, Top(true))
  {
    ClosedAlready(EMPTY);
    if h == [] {
      m := EMPTY;
      NothingRan(dict, m, h);
    } else {
      StayEntered(dict, EMPTY, h[0].entry.tag);
      m := RegionRuns(dict, EMPTY, EMPTY, h, EMPTY);
      FieldsBetween(dict, m, EMPTY, h);
      assert [] + Flat(h, 0) == Flat(h, 0);
    }
  }

  /** Once another region has come, behind one that may be empty. */
  lemma {:induction false} NextRegionRuns(dict: Dict, m: Machine, c: Machine, last: seq<Node>, ctx: Context,
                                          ns: seq<Node>, c0: Machine)
    returns (m': Machine)
    requires Between(dict, m, c, last, ctx) && ns != [] && ClearBehind(dict, last, ctx, ns[0].entry.tag)
    requires RegionEntered(dict, c, ns[0].entry.tag) == Ok(c0) && c0.Sound()
    requires AllStay(dict, c0.region, ns) && Fit(dict, ns, c0.Context())
    ensures Ran(dict, m, Tokens(ns)) == Ok(m')
    ensures Between(dict, m', c0.(tape := c0.tape + Flat(ns, 0)), ns, c0.Context())
  {
    hide Leaves, Flat, ClosedTo, RegionEntered, Ran, Fit, ClearBehind, Grew;
    LeavesBehind(dict, m, 0, last, ctx, ns[0].entry.tag);
    m' := RegionRuns(dict, m, c, ns, c0);
    FieldsBetween(dict, m', c0, ns);
  }

  /** The machine once the body has come, if there is one. */
  function AtBody(h: seq<Node>, b: seq<Node>): Machine {
    if b == [] then EMPTY.(tape := Flat(h, 0))
    else
      var tape := Flat(h, 0) + GapSlots();
      Machine(tape + Flat(b, 0), [], Body, |tape|, 0)
  }

  /** And once the trailer has. */
  function AtTrailer(h: seq<Node>, b: seq<Node>, t: seq<Node>): Machine {
    if t == [] then AtBody(h, b)
    else
      var tape := Flat(h, 0) + GapSlots();
      Machine(tape + Flat(b, 0) + Flat(t, 0), [], Trailer, |tape|, |tape| + Size(b))
  }

  lemma {:induction false} BodyRuns(dict: Dict, h: seq<Node>, b: seq<Node>, m: Machine) returns (m': Machine)
    requires AllStay(dict, Body, b) && Fit(dict, b, Top(false))
    requires b != [] ==> ClearBehind(dict, h, Top(true), b[0].entry.tag)
    requires Between(dict, m, EMPTY.(tape := Flat(h, 0)), h, Top(true))
    ensures Ran(dict, m, Tokens(b)) == Ok(m')
    ensures if b == [] then Between(dict, m', AtBody(h, b), h, Top(true)) else Between(dict, m', AtBody(h, b), b, Top(false))
  {
    if b == [] {
      m' := m;
      NothingRan(dict, m, b);
    } else {
      hide Leaves, Flat, ClosedTo, Ran, Fit, ClearBehind, GapSlots;
      var c := EMPTY.(tape := Flat(h, 0));
      var tape := c.tape + GapSlots();
      var c0 := c.(tape := tape, bodyStart := |tape|, region := Body);
      assert RegionEntered(dict, c, b[0].entry.tag) == Ok(c0);
      m' := NextRegionRuns(dict, m, c, h, Top(true), b, c0);
    }
  }

  lemma {:induction false} TrailerRuns(dict: Dict, h: seq<Node>, b: seq<Node>, t: seq<Node>, m: Machine)
    returns (m': Machine)
    requires AllStay(dict, Trailer, t) && Fit(dict, t, Top(false))
    requires t != [] ==> t[0].entry.tag !in dict.headerTags
    requires t != [] ==> if b == [] then ClearBehind(dict, h, Top(true), t[0].entry.tag)
                         else ClearBehind(dict, b, Top(false), t[0].entry.tag)
    requires if b == [] then Between(dict, m, AtBody(h, b), h, Top(true)) else Between(dict, m, AtBody(h, b), b, Top(false))
    ensures Ran(dict, m, Tokens(t)) == Ok(m')
    ensures m'.Sound() && ClosedTo(m', 0) == Ok(AtTrailer(h, b, t))
  {
    if t == [] {
      m' := m;
      NothingRan(dict, m, t);
    } else {
      hide Leaves, Flat, ClosedTo, Ran, Fit, ClearBehind, GapSlots;
      var c, tape := AtBody(h, b), Flat(h, 0) + GapSlots();
      var c0 := Machine(tape + Flat(b, 0), [], Trailer, |tape|, |tape| + Size(b));
      NoneFlat(b, tape);
      assert RegionEntered(dict, c, t[0].entry.tag) == Ok(c0);
      if b == [] {
        m' := NextRegionRuns(dict, m, c, h, Top(true), t, c0);
      } else {
        m' := NextRegionRuns(dict, m, c, b, Top(false), t, c0);
      }
    }
  }

  lemma {:induction false} NoneFlat(b: seq<Node>, tape: seq<Entry>)
    ensures b == [] ==> tape + Flat(b, 0) == tape && Size(b) == 0
  {
  }

  lemma {:induction false} FinishedIs(h: seq<Node>, b: seq<Node>, t: seq<Node>)
    ensures var m := Finished(AtTrailer(h, b, t));
            Image(m.tape, m.bodyStart, m.trailerStart) == ImageOf(Doc(h + [GapNode(HEADER_GAP)], b, t))
  {
    FlatAppend(h, [GapNode(HEADER_GAP)], 0);
    SizeAppend(h, [GapNode(HEADER_GAP)]);
    FlatOne(GapNode(HEADER_GAP), 0);
    assert Flat([GapNode(HEADER_GAP)], 0) == GapSlots();
    hide GapSlots;
    var tape := Flat(h, 0) + GapSlots();
    NoneFlat(b, tape);
    NoneFlat(t, tape + Flat(b, 0));
  }

  /**
   * The round trip: a conforming message's fields, groups nested to any depth among them, parse to
   * the tape of the same trees, with the same spans, depths and counts, and the header's gap.
   */
  lemma {:induction false} ParsedBack(dict: Dict, h: seq<Node>, b: seq<Node>, t: seq<Node>) returns (m: Machine)
    requires Conforms(dict, h, b, t)
    ensures Parsed(dict, Tokens(h) + Tokens(b) + Tokens(t)) == Ok(m)
    ensures Image(m.tape, m.bodyStart, m.trailerStart) == ImageOf(Doc(h + [GapNode(HEADER_GAP)], b, t))
  {
    hide Flat, Leaves, ClosedTo, Ran, Fit, ClearBehind, Finished, ImageOf, AtTrailer, AtBody;
    var m1 := HeaderRuns(dict, h);
    var m2 := BodyRuns(dict, h, b, m1);
    var m3 := TrailerRuns(dict, h, b, t, m2);
    RanOn(dict, EMPTY, Tokens(h), Tokens(b));
    RanOn(dict, EMPTY, Tokens(h) + Tokens(b), Tokens(t));
    FinishedIs(h, b, t);
    m := Finished(AtTrailer(h, b, t));
  }
}
