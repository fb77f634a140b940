/**
 * When a message is read back as it was (message/encode.rs, message/parse.rs): the fields that are
 * written can be read as the trees they were written from if and only if those conform to the
 * dictionary. What is seen of trees, as messages are compared, tells the trees.
 */
module Faithful {
  import opened Tape
  import opened Document
  import opened Groups
  import opened Storage
  import opened Shape
  import opened Pruning
  import opened Parsing
  import opened RoundTrip
  import opened Encoding
  import opened Equality
  import opened Lexing
  import opened Growth
  import opened Lossless
  import opened Forwarding
  import N = NormalForms
  import F = Fitting

  // ---------------------------------------------------------------------
  // What is seen tells the trees
  // ---------------------------------------------------------------------

  /** Trees all of which is compared: no BodyLength, CheckSum or group without instances at any depth. */
  predicate Visible(ns: seq<Node>, group: bool) {
    forall i :: 0 <= i < |ns| ==> VisibleNode(ns[i], group)
  }

  predicate VisibleNode(n: Node, group: bool) {
    && n.entry.tag != 9 && n.entry.tag != 10
    && if group then n.entry == INSTANCE && Visible(n.kids, false)
       else if n.entry.kind.Group? then n.entry == GroupEntry(n.entry.tag) && n.kids != [] && Visible(n.kids, true)
       else n.entry.IsField() && n.kids == []
  }

  /** The same trees, whatever the values. */
  predicate Like(a: seq<Node>, b: seq<Node>) {
    |a| == |b| && forall i :: 0 <= i < |a| ==> LikeNode(a[i], b[i])
  }

  predicate LikeNode(n: Node, m: Node) {
    n.entry.kind == m.entry.kind && n.entry.tag == m.entry.tag && Like(n.kids, m.kids)
  }

  lemma {:induction false} NodeSeen(segs: Segments, n: Node, depth: nat)
    requires VisibleNode(n, false)
    ensures NodeSights(segs, n, depth) == [SightOf(segs, Head(n, depth))] + Sights(segs, n.kids, depth + 1)
    ensures N.AllFromDepth(Sights(segs, n.kids, depth + 1), depth + 1)
  {
    hide SightOf;
    N.SightsDeep(segs, n.kids, depth + 1);
    if n.kids == [] {
      assert Sights(segs, n.kids, KidDepth(n, depth)) == [];
    }
  }

  lemma {:induction false} SeenFirst(segs: Segments, ns: seq<Node>, depth: nat)
    requires Visible(ns, false)
    ensures ns == [] ==> Sights(segs, ns, depth) == []
    ensures ns != [] ==>
              Sights(segs, ns, depth)
              == [SightOf(segs, Head(ns[0], depth))] + Sights(segs, ns[0].kids, depth + 1) + Sights(segs, ns[1..], depth)
    ensures ns != [] ==> VisibleNode(ns[0], false) && Visible(ns[1..], false)
    ensures Sights(segs, ns, depth) != [] ==> Sights(segs, ns, depth)[0].depth == depth
  {
    hide NodeSights;
    if ns != [] {
      assert VisibleNode(ns[0], false);
      hide VisibleNode;
      NodeSeen(segs, ns[0], depth);
      N.SightIs(segs, ns[0], depth);
    }
  }

  /** Where what is deeper ends. */
  lemma {:induction false} CutDeeper(x: Sight, s: seq<Sight>, u: seq<Sight>, y: Sight, t: seq<Sight>, v: seq<Sight>,
                                     depth: nat)
    requires [x] + s + u == [y] + t + v && N.AllFromDepth(s, depth + 1) && N.AllFromDepth(t, depth + 1)
    requires (u != [] ==> u[0].depth == depth) && (v != [] ==> v[0].depth == depth)
    ensures x == y && s == t && u == v
  {
    var a, b := [x] + s + u, [y] + t + v;
    assert a[0] == x && b[0] == y;
    N.TwoParts([x] + s, u);
    N.TwoParts([y] + t, v);
    assert forall k :: 0 <= k < |s| ==> ([x] + s)[k + 1] == s[k];
    assert forall k :: 0 <= k < |t| ==> ([y] + t)[k + 1] == t[k];
    assert s == a[1..|s| + 1] && t == b[1..|t| + 1] && u == a[|s| + 1..] && v == b[|t| + 1..];
  }

  /** Trees that look the same, as messages are compared, are the same trees. */
  lemma {:induction false} TreesTold(segs: Segments, a: seq<Node>, segs': Segments, b: seq<Node>, depth: nat)
    requires Visible(a, false) && Visible(b, false) && Sights(segs, a, depth) == Sights(segs', b, depth)
    ensures Like(a, b)
    decreases a, 1
  {
    SeenFirst(segs, a, depth);
    SeenFirst(segs', b, depth);
    hide Sights, SightOf, VisibleNode, LikeNode;
    if a != [] && b != [] {
      SeenFirst(segs, a[1..], depth);
      SeenFirst(segs', b[1..], depth);
      NodeSeen(segs, a[0], depth);
      NodeSeen(segs', b[0], depth);
      CutDeeper(SightOf(segs, Head(a[0], depth)), Sights(segs, a[0].kids, depth + 1), Sights(segs, a[1..], depth),
                SightOf(segs', Head(b[0], depth)), Sights(segs', b[0].kids, depth + 1), Sights(segs', b[1..], depth), depth);
      NodeTold(segs, a[0], segs', b[0], depth);
      TreesTold(segs, a[1..], segs', b[1..], depth);
      LikeMore(a, b);
    }
  }

  lemma {:induction false} LikeMore(a: seq<Node>, b: seq<Node>)
    requires a != [] && b != [] && LikeNode(a[0], b[0]) && Like(a[1..], b[1..])
    ensures Like(a, b)
  {
    hide LikeNode;
    assert forall i :: 1 <= i < |a| ==> a[i] == a[1..][i - 1];
    assert forall i :: 1 <= i < |b| ==> b[i] == b[1..][i - 1];
  }

  lemma {:induction false} NodeTold(segs: Segments, n: Node, segs': Segments, m: Node, depth: nat)
    requires VisibleNode(n, false) && VisibleNode(m, false)
    requires SightOf(segs, Head(n, depth)) == SightOf(segs', Head(m, depth))
    requires Sights(segs, n.kids, depth + 1) == Sights(segs', m.kids, depth + 1)
    ensures LikeNode(n, m)
    decreases n, 0
  {
    hide Sights, SightOf;
    N.SightIs(segs, n, depth);
    N.SightIs(segs', m, depth);
    if n.entry.kind.Group? {
      InstancesTold(segs, n.kids, segs', m.kids, depth + 1);
    } else {
      assert Like([], []);
    }
  }

  lemma {:induction false} InstancesTold(segs: Segments, a: seq<Node>, segs': Segments, b: seq<Node>, depth: nat)
    requires Visible(a, true) && Visible(b, true) && |a| == |b|
    requires Sights(segs, a, depth) == Sights(segs', b, depth)
    ensures Like(a, b)
    decreases a, 1
  {
    if a != [] {
      InstanceSeen(segs, a, depth);
      InstanceSeen(segs', b, depth);
      InstanceSeen(segs, a[1..], depth);
      InstanceSeen(segs', b[1..], depth);
      hide Sights, VisibleNode;
      N.CutInstance(Sight(Instance, 0, depth, None, None), Sights(segs, a[0].kids, depth), Sights(segs, a[1..], depth),
                    Sights(segs', b[0].kids, depth), Sights(segs', b[1..], depth), depth);
      TreesTold(segs, a[0].kids, segs', b[0].kids, depth);
      InstancesTold(segs, a[1..], segs', b[1..], depth);
      LikeMore(a, b);
    }
  }

  lemma {:induction false} InstanceSeen(segs: Segments, ns: seq<Node>, depth: nat)
    requires Visible(ns, true)
    ensures ns != [] ==>
              && ns[0].entry == INSTANCE && Visible(ns[0].kids, false) && Visible(ns[1..], true)
              && Sights(segs, ns, depth) == [Sight(Instance, 0, depth, None, None)] + Sights(segs, ns[0].kids, depth)
                                            + Sights(segs, ns[1..], depth)
              && N.Inner(Sights(segs, ns[0].kids, depth), depth)
    ensures Sights(segs, ns, depth) != [] ==> Sights(segs, ns, depth)[0].kind.Instance? && Sights(segs, ns, depth)[0].depth == depth
  {
    if ns != [] {
      assert VisibleNode(ns[0], true);
      VisibleInner(segs, ns[0].kids, depth);
    }
  }

  lemma {:induction false} VisibleInner(segs: Segments, ns: seq<Node>, depth: nat)
    requires Visible(ns, false)
    ensures N.Inner(Sights(segs, ns, depth), depth)
    decreases |ns|
  {
    if ns != [] {
      SeenFirst(segs, ns, depth);
      NodeSeen(segs, ns[0], depth);
      N.SightIs(segs, ns[0], depth);
      assert !ns[0].entry.kind.Instance?;
      hide Sights, SightOf, VisibleNode;
      VisibleInner(segs, ns[1..], depth);
    }
  }

  // ---------------------------------------------------------------------
  // The same trees conform alike
  // ---------------------------------------------------------------------

  /** Trees as they are built and parsed: entries of groups and instances say nothing of their own. */
  predicate Standard(ns: seq<Node>, group: bool) {
    forall i :: 0 <= i < |ns| ==> StandardNode(ns[i], group)
  }

  predicate StandardNode(n: Node, group: bool) {
    if group then n.entry == INSTANCE && Standard(n.kids, false)
    else if n.entry.kind.Group? then n.entry == GroupEntry(n.entry.tag) && Standard(n.kids, true)
    else n.entry.IsField() && n.kids == []
  }

  lemma {:induction false} LikeClear(dict: Dict, n: Node, m: Node, ctx: Context, tag: nat)
    requires LikeNode(n, m) && Clear(dict, m, ctx, tag)
    ensures Clear(dict, n, ctx, tag)
    decreases n
  {
    if n.entry.kind.Group? && n.kids != [] && Opened(dict, ctx, n.entry.tag).Some? {
      var g, k := Opened(dict, ctx, n.entry.tag).value, |n.kids| - 1;
      assert LikeNode(n.kids[k], m.kids[k]);
      LikeClearBehind(dict, n.kids[k].kids, m.kids[k].kids, Within(g), tag);
    }
  }

  lemma {:induction false} LikeClearBehind(dict: Dict, a: seq<Node>, b: seq<Node>, ctx: Context, tag: nat)
    requires Like(a, b) && ClearBehind(dict, b, ctx, tag)
    ensures ClearBehind(dict, a, ctx, tag)
    decreases a
  {
    if a != [] {
      var k := |a| - 1;
      assert LikeNode(a[k], b[k]);
      LikeClear(dict, a[k], b[k], ctx, tag);
    }
  }

  lemma {:induction false} LikeRest(a: seq<Node>, b: seq<Node>, group: bool)
    requires Like(a, b) && a != [] && Standard(a, group)
    ensures b != [] && LikeNode(a[0], b[0]) && Like(a[1..], b[1..])
    ensures StandardNode(a[0], group) && Standard(a[1..], group)
    ensures |a| > 1 ==> a[1].entry.tag == b[1].entry.tag
  {
    assert LikeNode(a[0], b[0]);
    assert |a| > 1 ==> LikeNode(a[1], b[1]);
  }

  lemma {:induction false} LikeFit(dict: Dict, a: seq<Node>, b: seq<Node>, ctx: Context)
    requires Like(a, b) && Standard(a, false) && Fit(dict, b, ctx)
    ensures Fit(dict, a, ctx)
    decreases a, 1
  {
    if a != [] {
      LikeRest(a, b, false);
      hide Like, LikeNode, Standard, StandardNode, Clear, NodeFit;
      LikeNodeFit(dict, a[0], b[0], ctx);
      if |a| > 1 {
        LikeClear(dict, a[0], b[0], ctx, a[1].entry.tag);
      }
      LikeFit(dict, a[1..], b[1..], ctx);
    }
  }

  lemma {:induction false} LikeNodeFit(dict: Dict, n: Node, m: Node, ctx: Context)
    requires LikeNode(n, m) && StandardNode(n, false) && NodeFit(dict, m, ctx)
    ensures NodeFit(dict, n, ctx)
    decreases n, 0
  {
    if n.entry.kind.Group? {
      hide InstancesFit;
      LikeInstancesFit(dict, n.kids, m.kids, Opened(dict, ctx, n.entry.tag).value);
    }
  }

  lemma {:induction false} LikeInstancesFit(dict: Dict, a: seq<Node>, b: seq<Node>, g: nat)
    requires Like(a, b) && Standard(a, true) && InstancesFit(dict, b, g)
    ensures InstancesFit(dict, a, g)
    decreases a, 1
  {
    if a != [] {
      LikeRest(a, b, true);
      var x, y := a[0].kids, b[0].kids;
      assert Like(x, y) && Standard(x, false);
      assert LikeNode(x[0], y[0]);
      MembersLike(dict, x, y, g);
      hide Like, LikeNode, Standard, StandardNode, Clear, Fit, Members;
      LikeFit(dict, x, y, Within(g));
      if |a| > 1 {
        LikeClearBehind(dict, x, y, Within(g), dict.groups(g).delimiter);
      }
      LikeInstancesFit(dict, a[1..], b[1..], g);
    }
  }

  lemma {:induction false} MembersLike(dict: Dict, a: seq<Node>, b: seq<Node>, g: nat)
    requires Like(a, b) && a != [] && Members(dict, b[1..], g)
    ensures Members(dict, a[1..], g)
  {
    forall i | 0 <= i < |a[1..]|
      ensures a[1..][i].entry.tag == b[1..][i].entry.tag
    {
      assert LikeNode(a[i + 1], b[i + 1]);
    }
  }

  lemma {:induction false} LikeStay(dict: Dict, r: Region, a: seq<Node>, b: seq<Node>)
    requires Like(a, b) && AllStay(dict, r, b)
    ensures AllStay(dict, r, a) && (a != [] ==> a[0].entry.tag == b[0].entry.tag)
  {
    assert forall i :: 0 <= i < |a| ==> LikeNode(a[i], b[i]);
  }

  lemma {:induction false} LikeConforms(dict: Dict, h: seq<Node>, b: seq<Node>, t: seq<Node>, h': seq<Node>,
                                        b': seq<Node>, t': seq<Node>)
    requires Like(h, h') && Like(b, b') && Like(t, t') && Standard(h, false) && Standard(b, false) && Standard(t, false)
    requires Conforms(dict, h', b', t')
    ensures Conforms(dict, h, b, t)
  {
    LikeStay(dict, Header, h, h');
    LikeStay(dict, Body, b, b');
    LikeStay(dict, Trailer, t, t');
    assert |h| == |h'| && |b| == |b'| && |t| == |t'|;
    hide Like, Standard, Fit, AllStay, ClearBehind;
    LikeFit(dict, h, h', Top(true));
    LikeFit(dict, b, b', Top(false));
    LikeFit(dict, t, t', Top(false));
    if b != [] {
      LikeClearBehind(dict, h, h', Top(true), b[0].entry.tag);
    }
    if t != [] {
      LikeClearBehind(dict, b, b', Top(false), t[0].entry.tag);
      if b == [] {
        LikeClearBehind(dict, h, h', Top(true), t[0].entry.tag);
      }
    }
  }

  // ---------------------------------------------------------------------
  // Fields and what is seen of them
  // ---------------------------------------------------------------------

  /** Fields that are compared: no BodyLength, CheckSum or count of zero. */
  predicate PlainTokens(ws: seq<Token>) {
    forall i :: 0 <= i < |ws| ==> PlainToken(ws[i])
  }

  predicate PlainToken(w: Token) {
    w.entry.tag != 9 && w.entry.tag != 10 && w.number != Some(0)
  }

  lemma {:induction false} PlainParts(a: seq<Token>, b: seq<Token>)
    ensures PlainTokens(a + b) <==> PlainTokens(a) && PlainTokens(b)
  {
    hide PlainToken;
    if PlainTokens(a + b) {
      assert forall i :: 0 <= i < |a| ==> a[i] == (a + b)[i];
      assert forall i :: 0 <= i < |b| ==> b[i] == (a + b)[|a| + i];
    }
  }

  /** Trees are all compared if and only if their fields are. */
  lemma {:induction false} VisibleWhen(ns: seq<Node>)
    requires Standard(ns, false)
    ensures Visible(ns, false) <==> PlainTokens(Tokens(ns))
    decreases ns, 1
  {
    if ns != [] {
      assert StandardNode(ns[0], false);
      FirstToken(ns);
      hide Tokens, NodeTokens, StandardNode, VisibleNode, PlainTokens;
      NodeVisibleWhen(ns[0]);
      VisibleWhen(ns[1..]);
      PlainParts(NodeTokens(ns[0]), Tokens(ns[1..]));
      VisibleMore(ns, false);
    }
  }

  lemma {:induction false} VisibleMore(ns: seq<Node>, group: bool)
    requires ns != []
    ensures Visible(ns, group) <==> VisibleNode(ns[0], group) && Visible(ns[1..], group)
  {
    hide VisibleNode;
    assert forall i :: 1 <= i < |ns| ==> ns[i] == ns[1..][i - 1];
  }

  lemma {:induction false} NodeVisibleWhen(n: Node)
    requires StandardNode(n, false)
    ensures VisibleNode(n, false) <==> PlainTokens(NodeTokens(n))
    decreases n, 0
  {
    hide InstanceTokens;
    if n.entry.kind.Group? {
      PlainParts([Written(n)], InstanceTokens(n.kids));
      InstancesVisibleWhen(n.kids);
      assert PlainTokens([Written(n)]) <==> PlainToken(Written(n)) by { assert [Written(n)][0] == Written(n); }
    } else {
      assert NodeTokens(n)[0] == Written(n);
    }
  }

  lemma {:induction false} InstancesVisibleWhen(ks: seq<Node>)
    requires Standard(ks, true)
    ensures Visible(ks, true) <==> PlainTokens(InstanceTokens(ks))
    decreases ks, 1
  {
    if ks != [] {
      assert StandardNode(ks[0], true);
      hide Tokens, PlainTokens;
      VisibleWhen(ks[0].kids);
      InstancesVisibleWhen(ks[1..]);
      PlainParts(Tokens(ks[0].kids), InstanceTokens(ks[1..]));
      VisibleMore(ks, true);
    }
  }

  lemma {:induction false} FitStandard(dict: Dict, ns: seq<Node>, ctx: Context)
    requires Fit(dict, ns, ctx)
    ensures Standard(ns, false)
    decreases ns, 1
  {
    if ns != [] {
      hide NodeFit, Clear, StandardNode;
      NodeStandard(dict, ns[0], ctx);
      FitStandard(dict, ns[1..], ctx);
      assert forall i :: 1 <= i < |ns| ==> ns[i] == ns[1..][i - 1];
    }
  }

  lemma {:induction false} NodeStandard(dict: Dict, n: Node, ctx: Context)
    requires NodeFit(dict, n, ctx)
    ensures StandardNode(n, false)
    decreases n, 0
  {
    if n.entry.kind.Group? {
      InstancesStandard(dict, n.kids, Opened(dict, ctx, n.entry.tag).value);
    }
  }

  lemma {:induction false} InstancesStandard(dict: Dict, ks: seq<Node>, g: nat)
    requires InstancesFit(dict, ks, g)
    ensures Standard(ks, true)
    decreases ks, 1
  {
    if ks != [] {
      hide Fit, ClearBehind, Members;
      FitStandard(dict, ks[0].kids, Within(g));
      InstancesStandard(dict, ks[1..], g);
      assert forall i :: 1 <= i < |ks| ==> ks[i] == ks[1..][i - 1];
    }
  }

  lemma {:induction false} StandardParts(a: seq<Node>, b: seq<Node>)
    ensures Standard(a + b, false) <==> Standard(a, false) && Standard(b, false)
  {
    hide StandardNode;
    if Standard(a + b, false) {
      assert forall i :: 0 <= i < |a| ==> a[i] == (a + b)[i];
      assert forall i :: 0 <= i < |b| ==> b[i] == (a + b)[|a| + i];
    }
  }

  lemma {:induction false} StandardTokens(ns: seq<Node>, group: bool)
    requires Standard(ns, group)
    ensures AllFieldTokens(if group then InstanceTokens(ns) else Tokens(ns))
    decreases ns, 1
  {
    if ns != [] {
      assert StandardNode(ns[0], group);
      hide NodeTokens;
      if group {
        StandardTokens(ns[0].kids, false);
      } else {
        NodeFieldTokens(ns[0]);
      }
      StandardTokens(ns[1..], group);
    }
  }

  lemma {:induction false} NodeFieldTokens(n: Node)
    requires StandardNode(n, false)
    ensures AllFieldTokens(NodeTokens(n))
    decreases n, 0
  {
    if n.entry.kind.Group? {
      StandardTokens(n.kids, true);
    }
  }

  // ---------------------------------------------------------------------
  // Read back if and only if it conforms
  // ---------------------------------------------------------------------

  /** The nodes of a message, framed. */
  function FramedForest(n8: Node, n9: Node, n35: Node, mid: seq<Node>, n10: Node): seq<Node> {
    [n8] + [n9] + [n35] + mid + [n10]
  }

  predicate ReadableAt(dict: Dict, f: seq<Node>, i: nat, j: nat) {
    i <= j <= |f| && Conforms(dict, f[..i], f[i..j], f[j..])
  }

  /** Split somewhere into a header, a body and a trailer, the nodes conform. */
  ghost predicate Readable(dict: Dict, f: seq<Node>) {
    exists i, j :: ReadableAt(dict, f, i, j)
  }

  lemma {:induction false} Reads(segs: Segments, dict: Dict, f: seq<Node>, i: nat, j: nat) returns (m: Machine)
    requires ReadableAt(dict, f, i, j)
    ensures Parsed(dict, Tokens(f)) == Ok(m) && Walk(segs, m.tape, 0) == Sights(segs, f, 0)
  {
    hide Conforms, Tokens, Sights, Walk, ImageOf;
    var h, b, t := f[..i], f[i..j], f[j..];
    m := ParsedBack(dict, h, b, t);
    assert f == h + b + t;
    TokensAppend(h + b, t);
    TokensAppend(h, b);
    ForestSeen(segs, h, b, t);
  }

  lemma {:induction false} ForestSeen(segs: Segments, h: seq<Node>, b: seq<Node>, t: seq<Node>)
    ensures Walk(segs, ImageOf(Doc(h + [GapNode(HEADER_GAP)], b, t)).tape, 0) == Sights(segs, h + b + t, 0)
  {
    hide Sights, Walk, ImageOf;
    var doc := Doc(h + [GapNode(HEADER_GAP)], b, t);
    WalkIsSights(segs, doc);
    ForestSights(segs, doc);
    SightsAppend(segs, h, [GapNode(HEADER_GAP)], 0);
    SightsOne(segs, GapNode(HEADER_GAP), 0);
    assert Sights(segs, h, 0) + [] == Sights(segs, h, 0);
    SightsAppend(segs, h + b, t, 0);
    SightsAppend(segs, h, b, 0);
  }

  /** BeginString and MsgType are seen, BodyLength and CheckSum are not. */
  lemma {:induction false} FrameSeen(segs: Segments, n8: Node, n9: Node, n35: Node, mid: seq<Node>, n10: Node)
    requires IsFieldNode(n8, 8) && IsFieldNode(n9, 9) && IsFieldNode(n35, 35) && IsFieldNode(n10, 10)
    ensures var f := FramedForest(n8, n9, n35, mid, n10);
            && |Sights(segs, f, 0)| >= 2 && Sights(segs, f, 0)[2..] == Sights(segs, mid, 0)
  {
    hide Sights;
    var start := [n8] + [n9] + [n35];
    SightsAppend(segs, start + mid, [n10], 0);
    StartParts(segs, n8, [n9], n35, mid);
    FramingNode(segs, n8, 8);
    FramingNode(segs, n35, 35);
    FramingNode(segs, n10, 10);
    var x, y, z := Sights(segs, [n8], 0), Sights(segs, [n35], 0), Sights(segs, mid, 0);
    assert (x + y + z + [])[2..] == z;
  }

  lemma {:induction false} PlainAlike(ts: seq<Token>, ws: seq<Token>, x: seq<Token>, y: seq<Token>)
    requires AllAlike(ts, ws) && |x| == |y| && |ts| == |x| + 4
    requires (forall i :: 0 <= i < |x| ==> ts[i + 3] == x[i]) && (forall i :: 0 <= i < |y| ==> ws[i + 3] == y[i])
    requires PlainTokens(x)
    ensures PlainTokens(y)
  {
    forall i | 0 <= i < |y|
      ensures PlainToken(y[i])
    {
      assert Alike(ts[i + 3], ws[i + 3]) && PlainToken(x[i]);
    }
  }

  lemma {:induction false} FramedTokens(n8: Node, n9: Node, n35: Node, mid: seq<Node>, n10: Node)
    requires IsFieldNode(n8, 8) && IsFieldNode(n9, 9) && IsFieldNode(n35, 35) && IsFieldNode(n10, 10)
    ensures var ws, x := Tokens(FramedForest(n8, n9, n35, mid, n10)), Tokens(mid);
            && |ws| == |x| + 4 && forall i :: 0 <= i < |x| ==> ws[i + 3] == x[i]
  {
    hide Tokens, NodeTokens;
    var start := [n8] + [n9] + [n35];
    TokensSnoc(start + mid, n10);
    TokensAppend(start, mid);
    assert start == [n8, n9, n35];
    FramingTokens(n8, n9, n35);
    HeadIs(n10);
  }

  lemma {:induction false} LikeParts(a: seq<Node>, b: seq<Node>, i: nat, j: nat)
    requires Like(a, b) && i <= j <= |a|
    ensures Like(a[i..j], b[i..j])
  {
    hide LikeNode;
    assert forall k :: 0 <= k < j - i ==> a[i..j][k] == a[k + i] && b[i..j][k] == b[k + i];
  }

  lemma {:induction false} LikeFramed(n8: Node, n9: Node, n35: Node,
                                      mid: seq<Node>, n10: Node, m8: Node, m9: Node, m35: Node,
                                      mid': seq<Node>, m10: Node)
    requires IsFieldNode(n8, 8) && IsFieldNode(n9, 9) && IsFieldNode(n35, 35) && IsFieldNode(n10, 10)
    requires IsFieldNode(m8, 8) && IsFieldNode(m9, 9) && IsFieldNode(m35, 35) && IsFieldNode(m10, 10)
    requires Like(mid, mid')
    ensures Like(FramedForest(n8, n9, n35, mid, n10), FramedForest(m8, m9, m35, mid', m10))
  {
    LikeField(n8, m8, 8);
    LikeField(n9, m9, 9);
    LikeField(n35, m35, 35);
    LikeField(n10, m10, 10);
    hide Like;
    LikeAppend([n8], [n9], [m8], [m9]);
    LikeAppend([n8] + [n9], [n35], [m8] + [m9], [m35]);
    LikeAppend([n8] + [n9] + [n35], mid, [m8] + [m9] + [m35], mid');
    LikeAppend([n8] + [n9] + [n35] + mid, [n10], [m8] + [m9] + [m35] + mid', [m10]);
  }

  lemma {:induction false} LikeField(n: Node, m: Node, tag: nat)
    requires IsFieldNode(n, tag) && IsFieldNode(m, tag)
    ensures Like([n], [m])
  {
    assert Like([], []);
  }

  lemma {:induction false} LikeAppend(a: seq<Node>, b: seq<Node>, a': seq<Node>, b': seq<Node>)
    requires Like(a, a') && Like(b, b')
    ensures Like(a + b, a' + b')
  {
    hide LikeNode;
  }

  lemma {:induction false} VisibleStandard(ns: seq<Node>, group: bool)
    requires Visible(ns, group)
    ensures Standard(ns, group)
    decreases ns
  {
    forall i | 0 <= i < |ns|
      ensures StandardNode(ns[i], group)
    {
      assert VisibleNode(ns[i], group);
      if group || ns[i].entry.kind.Group? {
        VisibleStandard(ns[i].kids, !group);
      }
    }
  }

  /** What comes back as it was can only be trees that conform. */
  lemma {:induction false} OnlyReads(segs: Segments, dict: Dict, n8: Node, n9: Node, n35: Node,
                                     mid: seq<Node>, n10: Node, m: Machine)
    requires SaneTables(dict) && CheckSumApart(dict)
    requires IsFieldNode(n8, 8) && IsFieldNode(n9, 9) && IsFieldNode(n35, 35) && IsFieldNode(n10, 10)
    requires Visible(mid, false) && Framed(Tokens(FramedForest(n8, n9, n35, mid, n10)))
    requires Parsed(dict, Tokens(FramedForest(n8, n9, n35, mid, n10))) == Ok(m)
    requires Walk(segs, m.tape, 0) == Sights(segs, FramedForest(n8, n9, n35, mid, n10), 0)
    ensures Readable(dict, FramedForest(n8, n9, n35, mid, n10))
  {
    hide *;
    var f := FramedForest(n8, n9, n35, mid, n10);
    FramedStandard(n8, n9, n35, mid, n10);
    StandardTokens(f, false);
    var h, b, t := ParsedIsLossless(dict, Tokens(f), m);
    var doc := Doc(h + [GapNode(HEADER_GAP)], b, t);
    HeaderOf(h);
    FramedAlike(Tokens(f), Tokens(h) + Tokens(b) + Tokens(t));
    var p := PartsOf(dict, doc);
    var mid' := p.rest + b + p.tail;
    var f' := FramedForest(p.n8, p.n9, p.n35, mid', p.n10);
    PartsForest(doc, p, h);
    ForestSeen(segs, h, b, t);
    FrameSeen(segs, n8, n9, n35, mid, n10);
    FrameSeen(segs, p.n8, p.n9, p.n35, mid', p.n10);
    MiddleVisible(dict, h, b, t, doc, p, f, n8, n9, n35, mid, n10);
    TreesTold(segs, mid, segs, mid', 0);
    LikeFramed(n8, n9, n35, mid, n10, p.n8, p.n9, p.n35, mid', p.n10);
    SplitConforms(dict, f, f', h, b, t);
  }

  lemma {:induction false} FramedStandard(n8: Node, n9: Node, n35: Node, mid: seq<Node>, n10: Node)
    requires IsFieldNode(n8, 8) && IsFieldNode(n9, 9) && IsFieldNode(n35, 35) && IsFieldNode(n10, 10) && Visible(mid, false)
    ensures Standard(FramedForest(n8, n9, n35, mid, n10), false)
  {
    VisibleStandard(mid, false);
    StandardParts([n8] + [n9] + [n35] + mid, [n10]);
    StandardParts([n8] + [n9] + [n35], mid);
  }

  lemma {:induction false} HeaderOf(h: seq<Node>)
    ensures Fields(h + [GapNode(HEADER_GAP)]) == h
  {
    var header := h + [GapNode(HEADER_GAP)];
    assert header[|header| - 1] == GapNode(HEADER_GAP) && header[..|header| - 1] == h;
  }

  lemma {:induction false} PartsForest(doc: Doc, p: Parts, h: seq<Node>)
    requires InParts(doc, p) && Fields(doc.header) == h
    ensures h + doc.body + doc.trailer == FramedForest(p.n8, p.n9, p.n35, p.rest + doc.body + p.tail, p.n10)
    ensures IsFieldNode(p.n8, 8) && IsFieldNode(p.n9, 9) && IsFieldNode(p.n35, 35) && IsFieldNode(p.n10, 10)
  {
  }

  /** The nodes between the framing fields, as they were read, are all compared. */
  lemma {:induction false} MiddleVisible(dict: Dict, h: seq<Node>, b: seq<Node>, t: seq<Node>, doc: Doc, p: Parts,
                                         f: seq<Node>, n8: Node, n9: Node, n35: Node, mid: seq<Node>, n10: Node)
    requires doc.body == b && doc.trailer == t && Fields(doc.header) == h && InParts(doc, p) && Conforms(dict, h, b, t)
    requires IsFieldNode(n8, 8) && IsFieldNode(n9, 9) && IsFieldNode(n35, 35) && IsFieldNode(n10, 10) && Visible(mid, false)
    requires f == FramedForest(n8, n9, n35, mid, n10) && AllAlike(Tokens(f), Tokens(h) + Tokens(b) + Tokens(t))
    ensures Visible(p.rest + b + p.tail, false)
  {
    hide *;
    var mid' := p.rest + b + p.tail;
    var f' := FramedForest(p.n8, p.n9, p.n35, mid', p.n10);
    PartsForest(doc, p, h);
    TokensAppend(h + b, t);
    TokensAppend(h, b);
    ConformStandard(dict, h, b, t);
    FramedMiddle(p.n8, p.n9, p.n35, mid', p.n10);
    FramedTokens(n8, n9, n35, mid, n10);
    FramedTokens(p.n8, p.n9, p.n35, mid', p.n10);
    VisibleStandard(mid, false);
    VisibleWhen(mid);
    SameCounted(Tokens(f), Tokens(f'));
    PlainAlike(Tokens(f), Tokens(f'), Tokens(mid), Tokens(mid'));
    VisibleWhen(mid');
  }

  lemma {:induction false} SameCounted(ts: seq<Token>, ws: seq<Token>)
    requires AllAlike(ts, ws)
    ensures |ts| == |ws|
  {
  }

  lemma {:induction false} ConformStandard(dict: Dict, h: seq<Node>, b: seq<Node>, t: seq<Node>)
    requires Conforms(dict, h, b, t)
    ensures Standard(h + b + t, false)
  {
    hide Fit, ClearBehind, AllStay, Standard;
    FitStandard(dict, h, Top(true));
    FitStandard(dict, b, Top(false));
    FitStandard(dict, t, Top(false));
    StandardParts(h + b, t);
    StandardParts(h, b);
  }

  lemma {:induction false} FramedMiddle(n8: Node, n9: Node, n35: Node, mid: seq<Node>, n10: Node)
    requires Standard(FramedForest(n8, n9, n35, mid, n10), false)
    ensures Standard(mid, false)
  {
    hide Standard;
    StandardParts([n8] + [n9] + [n35] + mid, [n10]);
    StandardParts([n8] + [n9] + [n35], mid);
  }

  lemma {:induction false} SplitConforms(dict: Dict, f: seq<Node>, f': seq<Node>, h: seq<Node>, b: seq<Node>, t: seq<Node>)
    requires Like(f, f') && Standard(f, false) && f' == h + b + t && Conforms(dict, h, b, t)
    ensures Readable(dict, f)
  {
    hide Conforms, LikeNode, StandardNode;
    var i, j := |h|, |h| + |b|;
    assert |f| == |f'|;
    LikeParts(f, f', 0, i);
    LikeParts(f, f', i, j);
    LikeParts(f, f', j, |f|);
    assert f'[0..i] == h && f'[i..j] == b && f'[j..|f|] == t;
    assert f[0..i] == f[..i] && f[j..|f|] == f[j..];
    assert forall k :: 0 <= k < i ==> f[..i][k] == f[k];
    assert forall k :: 0 <= k < j - i ==> f[i..j][k] == f[k + i];
    assert forall k :: 0 <= k < |f| - j ==> f[j..][k] == f[k + j];
    LikeConforms(dict, f[..i], f[i..j], f[j..], h, b, t);
    assert ReadableAt(dict, f, i, j);
  }

  // ---------------------------------------------------------------------
  // Messages
  // ---------------------------------------------------------------------

  predicate NoneZero(ws: seq<Token>) {
    forall i :: 0 <= i < |ws| ==> ws[i].number != Some(0)
  }

  /** No count of zero is ever written. */
  lemma {:induction false} EmitsNoZero(ns: seq<Node>, depth: nat)
    ensures NoneZero(Emit(ns, depth))
    decreases ns, 1
  {
    if ns != [] {
      hide EmitNode;
      EmitsNoZeroIn(ns[0], depth);
      EmitsNoZero(ns[1..], depth);
    }
  }

  lemma {:induction false} EmitsNoZeroIn(n: Node, depth: nat)
    ensures NoneZero(EmitNode(n, depth))
    decreases n, 0
  {
    hide Emit;
    if n.entry.kind.Instance? {
      EmitsNoZero(n.kids, depth);
    } else if n.entry.kind.Group? {
      EmitsNoZero(n.kids, depth + 1);
    }
  }

  lemma {:induction false} StrippedStandard(ns: seq<Node>, group: bool, depth: nat)
    requires Standard(ns, group)
    ensures Standard(Stripped(ns, depth), group)
    decreases ns, 1
  {
    if ns != [] {
      assert StandardNode(ns[0], group);
      hide StripNode, StandardNode;
      NodeStripStandard(ns[0], group, depth);
      StrippedStandard(ns[1..], group, depth);
    }
  }

  lemma {:induction false} NodeStripStandard(n: Node, group: bool, depth: nat)
    requires StandardNode(n, group)
    ensures Standard(StripNode(n, depth), group)
    decreases n, 0
  {
    hide Stripped, Standard;
    if group {
      StrippedStandard(n.kids, false, depth);
      StandardOne(n.(kids := Stripped(n.kids, depth)), true);
    } else if n.entry.kind.Group? {
      StrippedStandard(n.kids, true, depth + 1);
      StandardOne(n.(kids := Stripped(n.kids, depth + 1)), false);
    } else {
      StandardOne(n, false);
    }
    StandardNone(group);
  }

  lemma {:induction false} StandardOne(n: Node, group: bool)
    requires StandardNode(n, group)
    ensures Standard([n], group)
  {
  }

  lemma {:induction false} StandardNone(group: bool)
    ensures Standard([], group)
  {
  }

  /** What is written of a message, as trees. */
  function WrittenForest(doc: Doc, n8: Node, n9: Node, n35: Node, n10: Node): seq<Node> {
    FramedForest(n8, n9, n35, Stripped(doc.header, 0) + Stripped(doc.body, 0) + Stripped(doc.trailer, 0), n10)
  }

  lemma {:induction false} ForestIsWritten(segs: Segments, doc: Doc, n8: Node, nine: seq<Node>, n35: Node,
                                           rest: seq<Node>, n9: Node, n10: Node)
    requires WellFormed(doc) && StartsAsWritten(doc, n8, nine, n35, rest) && IsFieldNode(n9, 9) && IsFieldNode(n10, 10)
    requires NoneEmpty(rest) && NoneEmpty(doc.body) && NoneEmpty(doc.trailer)
    ensures Tokens(WrittenForest(doc, n8, n9, n35, n10)) == OnWire(doc, n8, n9, n10)
    ensures Walk(segs, ImageOf(doc).tape, 0) == Sights(segs, WrittenForest(doc, n8, n9, n35, n10), 0)
  {
    hide Stripped, Sights, Walk, ImageOf, WellFormed, NoneEmpty, OnlyDerived, Tokens, OnWire;
    MsgTypeFound(doc, n8, nine, n35, rest);
    WireIsTokens(doc, n8, n9, n35, n10);
    SameReadBack(segs, doc, n8, nine, n35, rest, n9, n10);
    var h, b, t := [n8, n9, n35] + Stripped(doc.header, 0), Stripped(doc.body, 0), Stripped(doc.trailer, 0) + [n10];
    assert WrittenForest(doc, n8, n9, n35, n10) == h + b + t;
    TokensAppend(h + b, t);
    TokensAppend(h, b);
    ForestSeen(segs, h, b, t);
  }

  lemma {:induction false} WrittenVisible(segs: Segments, doc: Doc, n8: Node, nine: seq<Node>, n35: Node,
                                          rest: seq<Node>, n9: Node, n10: Node)
    requires WellFormed(doc) && StartsAsWritten(doc, n8, nine, n35, rest) && IsFieldNode(n9, 9) && IsFieldNode(n10, 10)
    requires Standard(rest, false) && Standard(doc.body, false) && Standard(doc.trailer, false)
    requires Framed(Tokens(WrittenForest(doc, n8, n9, n35, n10)))
    ensures Visible(Stripped(doc.header, 0) + Stripped(doc.body, 0) + Stripped(doc.trailer, 0), false)
  {
    hide Stripped, WellFormed, Tokens, Framed, Emit, Standard;
    var h, b, t := Stripped(doc.header, 0), Stripped(doc.body, 0), Stripped(doc.trailer, 0);
    var mid := h + b + t;
    GapNowhere(segs, doc.header);
    StartParts(segs, n8, nine, n35, rest);
    StrippedStandard(rest, false, 0);
    StrippedStandard(doc.body, false, 0);
    StrippedStandard(doc.trailer, false, 0);
    StandardParts(h + b, t);
    StandardParts(h, b);
    ForestWalkable(doc);
    Emits(Forest(doc), false, 0);
    StrippedAppend(doc.header + doc.body, doc.trailer, 0);
    StrippedAppend(doc.header, doc.body, 0);
    EmitsNoZero(Forest(doc), 0);
    FramedTokens(n8, n9, n35, mid, n10);
    MiddlePlain(Tokens(WrittenForest(doc, n8, n9, n35, n10)), Tokens(mid));
    VisibleWhen(mid);
  }

  lemma {:induction false} MiddlePlain(ws: seq<Token>, x: seq<Token>)
    requires Framed(ws) && |ws| == |x| + 4 && (forall i :: 0 <= i < |x| ==> ws[i + 3] == x[i]) && NoneZero(x)
    ensures PlainTokens(x)
  {
    forall i | 0 <= i < |x|
      ensures PlainToken(x[i])
    {
      assert ws[i + 3].entry.tag !in FIRST && FIRST[1] == 9;
    }
  }

  /** The fields that are written parse, and what comes of it equals the message. */
  predicate ReadsBack(segs: Segments, dict: Dict, doc: Doc, ts: seq<Token>) {
    var r := Parsed(dict, ts);
    r.Ok? && SameMessage(segs, ImageOf(doc).tape, segs, r.value.tape)
  }

  /**
   * Exactly which messages survive: the fields written of a message, with no instance empty, parse
   * to a message equal to it if and only if what is written, as trees, conforms to the dictionary.
   */
  lemma {:induction false} ReadBackWhen(segs: Segments, dict: Dict, doc: Doc, n8: Node, nine: seq<Node>, n35: Node,
                                        rest: seq<Node>, n9: Node, n10: Node)
    requires WellFormed(doc) && StartsAsWritten(doc, n8, nine, n35, rest) && IsFieldNode(n9, 9) && IsFieldNode(n10, 10)
    requires NoneEmpty(rest) && NoneEmpty(doc.body) && NoneEmpty(doc.trailer)
    requires Standard(rest, false) && Standard(doc.body, false) && Standard(doc.trailer, false)
    requires SaneTables(dict) && CheckSumApart(dict) && Framed(OnWire(doc, n8, n9, n10))
    ensures ReadsBack(segs, dict, doc, OnWire(doc, n8, n9, n10))
            <==> Readable(dict, WrittenForest(doc, n8, n9, n35, n10))
  {
    hide WellFormed, NoneEmpty, Standard, SaneTables, CheckSumApart, Framed, OnWire, Parsed, ImageOf, Walk, Sights;
    hide Stripped, Tokens, ReadableAt, Visible, FramedForest, OnlyDerived, Fields;
    var f := WrittenForest(doc, n8, n9, n35, n10);
    ForestIsWritten(segs, doc, n8, nine, n35, rest, n9, n10);
    if ReadsBack(segs, dict, doc, OnWire(doc, n8, n9, n10)) {
      WrittenVisible(segs, doc, n8, nine, n35, rest, n9, n10);
      OnlyReads(segs, dict, n8, n9, n35, Stripped(doc.header, 0) + Stripped(doc.body, 0) + Stripped(doc.trailer, 0), n10,
                Parsed(dict, OnWire(doc, n8, n9, n10)).value);
    }
    if Readable(dict, f) {
      var i, j :| ReadableAt(dict, f, i, j);
      var m := Reads(segs, dict, f, i, j);
    }
  }

  // ---------------------------------------------------------------------
  // A count of zero can be missed
  // ---------------------------------------------------------------------

  /** Body fields that are taken for part of the group before them: however the nodes are split, they do not conform. */
  lemma {:induction false} TakenIn(dict: Dict, f: seq<Node>, k: nat)
    requires k + 1 < |f| && Stays(dict, Body, f[k].entry.tag) && Stays(dict, Body, f[k + 1].entry.tag)
    requires !Clear(dict, f[k], Top(false), f[k + 1].entry.tag)
    ensures !Readable(dict, f)
  {
    forall i: nat, j: nat
      ensures !ReadableAt(dict, f, i, j)
    {
      TakenInAt(dict, f, k, i, j);
    }
  }

  lemma {:induction false} TakenInAt(dict: Dict, f: seq<Node>, k: nat, i: nat, j: nat)
    requires k + 1 < |f| && Stays(dict, Body, f[k].entry.tag) && Stays(dict, Body, f[k + 1].entry.tag)
    requires !Clear(dict, f[k], Top(false), f[k + 1].entry.tag)
    ensures !ReadableAt(dict, f, i, j)
  {
    hide Clear;
    if ReadableAt(dict, f, i, j) {
      SplitStays(dict, f, i, j, k);
      SplitStays(dict, f, i, j, k + 1);
      hide Fit;
      FitNext(dict, f[i..j], Top(false), k - i);
    }
  }

  lemma {:induction false} SplitStays(dict: Dict, f: seq<Node>, i: nat, j: nat, k: nat)
    requires ReadableAt(dict, f, i, j) && k < |f|
    ensures k < i ==> Stays(dict, Header, f[k].entry.tag)
    ensures i <= k < j ==> f[i..j][k - i] == f[k]
    ensures k >= j ==> Stays(dict, Trailer, f[k].entry.tag)
  {
    hide Fit, ClearBehind;
    assert k < i ==> f[..i][k] == f[k];
    assert k >= j ==> f[j..][k - j] == f[k];
  }

  lemma {:induction false} FitNext(dict: Dict, ns: seq<Node>, ctx: Context, k: nat)
    requires Fit(dict, ns, ctx) && k + 1 < |ns|
    ensures Clear(dict, ns[k], ctx, ns[k + 1].entry.tag)
    decreases |ns|
  {
    hide Clear, NodeFit;
    if k > 0 {
      FitNext(dict, ns[1..], ctx, k - 1);
    }
  }

  /** A party group, whose instances start with 448 and may have a 447, and a group of alternative ids. */
  const PARTIES := Dict(g => if g == 0 then GroupDef(448, {447}, map[]) else GroupDef(455, {}, map[]),
                        map[], map[453 := 0, 454 := 1], {8, 9, 35}, {10}, map[])

  function PlainField(tag: nat): Node {
    Node(Entry(tag, Field, 0, Wire, 0, 0, 0), [])
  }

  /** One party, no alternative ids, and then a 447 that belongs to neither. */
  function ZeroCounted(): Doc {
    Doc([PlainField(8), PlainField(9), PlainField(35), GapNode(HEADER_GAP)],
        [Node(GroupEntry(453), [Node(INSTANCE, [PlainField(448)])]), Node(GroupEntry(454), []), PlainField(447)],
        [PlainField(10)])
  }

  lemma {:induction false} FitOne(dict: Dict, n: Node, ns: seq<Node>, ctx: Context)
    requires NodeFit(dict, n, ctx) && Fit(dict, ns, ctx) && (ns != [] ==> Clear(dict, n, ctx, ns[0].entry.tag))
    ensures Fit(dict, [n] + ns, ctx)
  {
    hide NodeFit, Clear;
    assert ([n] + ns)[1..] == ns;
  }

  lemma {:induction false} PlainFits(dict: Dict, tag: nat, ctx: Context)
    requires Opened(dict, ctx, tag).None?
    ensures NodeFit(dict, PlainField(tag), ctx) && forall t :: Clear(dict, PlainField(tag), ctx, t)
    ensures Fit(dict, [], ctx)
  {
  }

  lemma {:induction false} PlainFit(dict: Dict, tags: seq<nat>, ns: seq<Node>, ctx: Context)
    requires |ns| == |tags|
    requires forall i :: 0 <= i < |ns| ==> ns[i] == PlainField(tags[i]) && Opened(dict, ctx, tags[i]).None?
    ensures Fit(dict, ns, ctx)
    decreases |ns|
  {
    if ns != [] {
      PlainFits(dict, tags[0], ctx);
      PlainFit(dict, tags[1..], ns[1..], ctx);
    }
  }

  lemma {:induction false} ZeroBodyFits()
    ensures Fit(PARTIES, ZeroCounted().body, Top(false))
  {
    var body, d := ZeroCounted().body, PARTIES;
    var party, none, last := body[0], body[1], [PlainField(447)];
    PlainFit(d, [448], [PlainField(448)], Within(0));
    PlainFit(d, [447], last, Top(false));
    assert [PlainField(448)][1..] == [] && party.kids[1..] == [];
    PlainFits(d, 448, Within(0));
    assert InstancesFit(d, party.kids, 0);
    assert NodeFit(d, party, Top(false)) && Clear(d, party, Top(false), 454);
    assert NodeFit(d, none, Top(false)) && Clear(d, none, Top(false), 447);
    hide NodeFit, Clear, Fit;
    FitOne(d, none, last, Top(false));
    FitOne(d, party, [none] + last, Top(false));
    assert body == [party] + ([none] + last);
  }

  /** It is accepted. */
  lemma {:induction false} ZeroConforms()
    ensures var doc := ZeroCounted(); Conforms(PARTIES, Fields(doc.header), doc.body, doc.trailer)
  {
    var doc, d := ZeroCounted(), PARTIES;
    var h := [PlainField(8), PlainField(9), PlainField(35)];
    HeaderOf(h);
    assert doc.header == h + [GapNode(HEADER_GAP)];
    PlainFit(d, [8, 9, 35], h, Top(true));
    ZeroBodyFits();
    PlainFit(d, [10], doc.trailer, Top(false));
    hide Fit, Fields;
    assert AllStay(d, Header, h) && AllStay(d, Body, doc.body) && AllStay(d, Trailer, doc.trailer);
    F.LeafIsClear(d, h[2], Top(true), 453);
    F.LeafIsClear(d, doc.body[2], Top(false), 10);
  }

  lemma {:induction false} ZeroShaped()
    ensures var doc := ZeroCounted();
            Shaped(doc.body, false) && Shaped(doc.trailer, false)
  {
    var doc := ZeroCounted();
    var party := doc.body[0];
    assert Shaped([PlainField(448)], false);
    assert ShapedNode(party.kids[0], true);
    assert Shaped(party.kids, true) && Shaped([], true);
    assert ShapedNode(party, false) && ShapedNode(doc.body[1], false) && ShapedNode(PlainField(447), false);
    hide ShapedNode;
  }

  lemma {:induction false} ZeroNoneEmpty()
    ensures var doc := ZeroCounted();
            NoneEmpty(doc.body) && NoneEmpty(doc.trailer) && NoneEmpty([])
  {
    var doc := ZeroCounted();
    var party := doc.body[0];
    assert Writes([PlainField(448)]) && NoneEmptyIn(party.kids[0]);
    assert NoneEmpty(party.kids) && NoneEmpty([]);
    assert NoneEmptyIn(party) && NoneEmptyIn(doc.body[1]) && NoneEmptyIn(PlainField(447));
    hide NoneEmptyIn;
  }

  lemma {:induction false} ZeroStarts()
    ensures var doc := ZeroCounted();
            && Shaped(Fields(doc.header), false) && Fields(doc.header) == [PlainField(8), PlainField(9), PlainField(35)]
            && |doc.header| == 4 && doc.header[3] == GapNode(NodeSize(doc.header[3]))
            && StartsAsWritten(doc, PlainField(8), [PlainField(9)], PlainField(35), [])
  {
    var doc := ZeroCounted();
    var h := [PlainField(8), PlainField(9), PlainField(35)];
    HeaderOf(h);
    assert doc.header == h + [GapNode(HEADER_GAP)];
    assert h == [PlainField(8)] + [PlainField(9)] + [PlainField(35)] + [];
    hide Fields;
  }

  lemma {:induction false} ZeroStandard()
    ensures var doc := ZeroCounted();
            Standard([], false) && Standard(doc.body, false) && Standard(doc.trailer, false)
  {
    var doc := ZeroCounted();
    ZeroConforms();
    hide Standard, Conforms;
    StandardNone(false);
    ConformStandard(PARTIES, Fields(doc.header), doc.body, doc.trailer);
    StandardParts(Fields(doc.header) + doc.body, doc.trailer);
    StandardParts(Fields(doc.header), doc.body);
  }

  lemma {:induction false} ZeroStripped()
    ensures var doc := ZeroCounted();
            && Stripped(doc.header, 0) == [] && Stripped(doc.body, 0) == [doc.body[0], PlainField(447)]
            && Stripped(doc.trailer, 0) == []
  {
    var doc := ZeroCounted();
    var party, gap := doc.body[0], GapNode(HEADER_GAP);
    assert StripNode(PlainField(448), 1) == [PlainField(448)] && [PlainField(448)][1..] == [];
    assert Stripped([PlainField(448)], 1) == [PlainField(448)] && Writes([PlainField(448)]);
    var i := party.kids[0];
    assert i.(kids := [PlainField(448)]) == i && StripNode(i, 1) == [i] && party.kids[1..] == [];
    assert Stripped(party.kids, 1) == [i] && Live(party.kids) == 1;
    assert party.(kids := [i]) == party && StripNode(party, 0) == [party];
    assert StripNode(doc.body[1], 0) == [] && StripNode(PlainField(447), 0) == [PlainField(447)];
    StripSteps(doc.body, 0);
    StripSteps(doc.header, 0);
    StripSteps(doc.trailer, 0);
  }

  lemma {:induction false} StripSteps(ns: seq<Node>, depth: nat)
    requires 1 <= |ns| <= 4
    ensures Stripped(ns, depth)
            == StripNode(ns[0], depth) + (if |ns| > 1 then StripNode(ns[1], depth) else [])
               + (if |ns| > 2 then StripNode(ns[2], depth) else []) + (if |ns| > 3 then StripNode(ns[3], depth) else [])
    decreases |ns|
  {
    hide StripNode;
    if |ns| > 1 {
      StripSteps(ns[1..], depth);
    }
  }

  /**
   * A count of zero that is not written can be missed: the message is accepted, but the field behind
   * the empty group, written without it, is taken into the group before.
   */
  lemma {:induction false} ZeroCountLost(segs: Segments)
    ensures var doc := ZeroCounted();
            && Parsed(PARTIES, Tokens(Fields(doc.header)) + Tokens(doc.body) + Tokens(doc.trailer)).Ok?
            && !ReadsBack(segs, PARTIES, doc, OnWire(doc, PlainField(8), PlainField(9), PlainField(10)))
  {
    hide *;
    var doc := ZeroCounted();
    var a, b, c, e := PlainField(8), PlainField(9), PlainField(35), PlainField(10);
    ZeroConforms();
    var m := ParsedBack(PARTIES, Fields(doc.header), doc.body, doc.trailer);
    ZeroShaped();
    ZeroNoneEmpty();
    ZeroStarts();
    ZeroSound();
    ZeroStandard();
    ZeroFramed();
    ForestIsWritten(segs, doc, a, [b], c, [], b, e);
    ReadBackWhen(segs, PARTIES, doc, a, [b], c, [], b, e);
    ZeroTaken();
  }

  lemma {:induction false} ZeroSound()
    requires var doc := ZeroCounted();
             && Shaped(Fields(doc.header), false) && Shaped(doc.body, false) && Shaped(doc.trailer, false)
             && |doc.header| == 4 && doc.header[3] == GapNode(NodeSize(doc.header[3]))
    ensures WellFormed(ZeroCounted()) && SaneTables(PARTIES) && CheckSumApart(PARTIES)
    ensures IsFieldNode(PlainField(9), 9) && IsFieldNode(PlainField(10), 10)
  {
    hide Shaped, Fields;
  }

  lemma {:induction false} ZeroForest()
    ensures var doc := ZeroCounted();
            WrittenForest(doc, PlainField(8), PlainField(9), PlainField(35), PlainField(10))
            == FramedForest(PlainField(8), PlainField(9), PlainField(35), [doc.body[0], PlainField(447)], PlainField(10))
  {
    ZeroStripped();
    hide Stripped, PlainField;
    var x := [ZeroCounted().body[0], PlainField(447)];
    assert [] + x + [] == x;
  }

  /** The 447 is a member of the party group. */
  lemma {:induction false} ZeroTaken()
    ensures !Readable(PARTIES, WrittenForest(ZeroCounted(), PlainField(8), PlainField(9), PlainField(35), PlainField(10)))
  {
    ZeroForest();
    PartyTakes();
    hide WrittenForest, Clear, Readable;
    var f := WrittenForest(ZeroCounted(), PlainField(8), PlainField(9), PlainField(35), PlainField(10));
    assert f[3] == ZeroCounted().body[0] && f[4] == PlainField(447);
    TakenIn(PARTIES, f, 3);
  }

  lemma {:induction false} PartyTakes()
    ensures !Clear(PARTIES, ZeroCounted().body[0], Top(false), 447)
  {
    assert !Skips(PARTIES, 0, 447);
  }

  lemma {:induction false} ZeroFramed()
    ensures Framed(Tokens(WrittenForest(ZeroCounted(), PlainField(8), PlainField(9), PlainField(35), PlainField(10))))
  {
    ZeroForest();
    hide WrittenForest;
    var party, y := ZeroCounted().body[0], PlainField(447);
    var mid := [party, y];
    ZeroTokens();
    FramedTokens(PlainField(8), PlainField(9), PlainField(35), mid, PlainField(10));
    FramedEnds(PlainField(8), PlainField(9), PlainField(35), mid, PlainField(10));
    FramedBy(Tokens(FramedForest(PlainField(8), PlainField(9), PlainField(35), mid, PlainField(10))), Tokens(mid));
  }

  lemma {:induction false} ZeroTokens()
    ensures var x := Tokens([ZeroCounted().body[0], PlainField(447)]);
            forall i :: 0 <= i < |x| ==> x[i].entry.tag !in FIRST && x[i].entry.tag != 10
  {
    var party, y, z := ZeroCounted().body[0], PlainField(447), PlainField(448);
    OneToken(z);
    OneToken(y);
    OneToken(party.kids[0]);
    OneToken(party);
    assert party.kids == [party.kids[0]];
    assert [party, y] == [party] + [y];
    TokensAppend([party], [y]);
    assert NodeTokens(party) == [Written(party)] + [Written(z)];
  }

  lemma {:induction false} FramedBy(ws: seq<Token>, x: seq<Token>)
    requires |ws| == |x| + 4 && forall i :: 0 <= i < |x| ==> ws[i + 3] == x[i]
    requires forall i :: 0 <= i < |x| ==> x[i].entry.tag !in FIRST && x[i].entry.tag != 10
    requires ws[0] == FieldToken(PlainField(8).entry) && ws[1] == FieldToken(PlainField(9).entry)
    requires ws[2] == FieldToken(PlainField(35).entry) && ws[|ws| - 1] == FieldToken(PlainField(10).entry)
    ensures Framed(ws)
  {
    assert forall i :: 3 <= i < |ws| - 1 ==> ws[i] == x[i - 3];
  }

  lemma {:induction false} FramedEnds(n8: Node, n9: Node, n35: Node, mid: seq<Node>, n10: Node)
    requires IsFieldNode(n8, 8) && IsFieldNode(n9, 9) && IsFieldNode(n35, 35) && IsFieldNode(n10, 10)
    ensures var ws := Tokens(FramedForest(n8, n9, n35, mid, n10));
            && |ws| == |Tokens(mid)| + 4
            && ws[0] == FieldToken(n8.entry) && ws[1] == FieldToken(n9.entry) && ws[2] == FieldToken(n35.entry)
            && ws[|ws| - 1] == FieldToken(n10.entry)
  {
    hide Tokens, NodeTokens;
    var start := [n8] + [n9] + [n35];
    TokensSnoc(start + mid, n10);
    TokensAppend(start, mid);
    assert start == [n8, n9, n35];
    FramingTokens(n8, n9, n35);
    HeadIs(n10);
  }
}
