/**
 * A message that was accepted can be sent on (message/parse.rs, message/encode.rs): unless it
 * declared a group without instances, what is written of it is accepted again, and is equal to it.
 */
module Forwarding {
  import opened Tape
  import opened Document
  import opened Groups
  import opened Numerals
  import opened Storage
  import opened Output
  import opened Shape
  import opened Pruning
  import opened Parsing
  import opened RoundTrip
  import opened Encoding
  import opened Equality
  import opened Lexing
  import opened Legible
  import opened Machines
  import opened WireTrip
  import opened MessageTrip
  import opened Growth
  import opened Lossless
  import Fitting
  import P = Parser

  // ---------------------------------------------------------------------
  // Which nodes the first and the last fields are
  // ---------------------------------------------------------------------

  /** CheckSum is a plain field: a member of no group, and no other field's data. */
  ghost predicate CheckSumApart(dict: Dict) {
    && (forall g :: Skips(dict, g, 10)) && 10 !in dict.bodyGroups
    && forall l :: l in dict.dataOf ==> dict.dataOf[l] != 10
  }

  lemma {:induction false} LastInstance(dict: Dict, ks: seq<Node>, g: nat)
    requires InstancesFit(dict, ks, g) && ks != []
    ensures var ns := ks[|ks| - 1].kids;
            ns != [] && Fitting.InstanceFits(dict, ns, g)
    decreases |ks|
  {
    hide Fit, Members, ClearBehind;
    if |ks| > 1 {
      LastInstance(dict, ks[1..], g);
      assert ks[1..][|ks| - 2] == ks[|ks| - 1];
    }
  }

  /** The last field of nodes side by side, if no group has its tag, is the last node. */
  lemma {:induction false} LastIsLeaf(dict: Dict, ns: seq<Node>, ctx: Context, tag: nat)
    requires Fit(dict, ns, ctx) && ns != [] && forall g :: Skips(dict, g, tag)
    ensures Tokens(ns) != []
    ensures var ws, n := Tokens(ns), ns[|ns| - 1];
            ws[|ws| - 1].entry.tag == tag ==> n.kids == [] && ws[|ws| - 1] == Written(n)
    decreases ns
  {
    hide Clear, Skips;
    var k := |ns| - 1;
    var n := ns[k];
    assert ns == ns[..k] + [n];
    TokensSnoc(ns[..k], n);
    FitAt(dict, ns, ctx, k);
    if n.entry.kind.Group? && n.kids != [] {
      GroupsLast(dict, n, ctx, tag);
    } else {
      assert NodeTokens(n) == [Written(n)];
    }
  }

  lemma {:induction false} FitAt(dict: Dict, ns: seq<Node>, ctx: Context, k: nat)
    requires Fit(dict, ns, ctx) && k < |ns|
    ensures NodeFit(dict, ns[k], ctx)
    decreases |ns|
  {
    hide NodeFit, Clear;
    if k > 0 {
      FitAt(dict, ns[1..], ctx, k - 1);
    }
  }

  lemma {:induction false} GroupsLast(dict: Dict, n: Node, ctx: Context, tag: nat)
    requires NodeFit(dict, n, ctx) && n.entry.kind.Group? && n.kids != [] && forall g :: Skips(dict, g, tag)
    ensures var ws := NodeTokens(n);
            ws[|ws| - 1].entry.tag != tag
    decreases n, 0
  {
    hide Clear, Fit, InstancesFit;
    var g, ks := Opened(dict, ctx, n.entry.tag).value, n.kids;
    var k := |ks| - 1;
    var kids := ks[k].kids;
    LastInstance(dict, ks, g);
    assert ks == ks[..k] + [ks[k]];
    TokensSnoc(ks[..k], ks[k]);
    assert InstanceTokens(ks) == InstanceTokens(ks[..k]) + Tokens(kids);
    LastIsLeaf(dict, kids, Within(g), tag);
    assert Skips(dict, g, tag);
    var last := kids[|kids| - 1];
    assert |kids| > 1 ==> kids[1..][|kids| - 2] == last;
  }

  /** A header field that comes first is the header's first node. */
  lemma {:induction false} HeadField(dict: Dict, h: seq<Node>, b: seq<Node>, t: seq<Node>, tag: nat)
    requires Conforms(dict, h, b, t) && tag in dict.headerTags && tag !in dict.headerGroups
    requires var ws := Tokens(h) + Tokens(b) + Tokens(t);
             ws != [] && ws[0].entry.tag == tag && ws[0].entry.kind.Field?
    ensures h != [] && IsFieldNode(h[0], tag) && Conforms(dict, h[1..], b, t)
    ensures Tokens(h) + Tokens(b) + Tokens(t) == [FieldToken(h[0].entry)] + (Tokens(h[1..]) + Tokens(b) + Tokens(t))
  {
    hide Clear, Tokens, NodeTokens;
    FirstToken(h);
    FirstToken(b);
    FirstToken(t);
    assert h == [] ==> Tokens(h) + Tokens(b) + Tokens(t) == Tokens(b) + Tokens(t);
    var n := h[0];
    assert NodeFit(dict, n, Top(true));
    HeadIs(n);
    assert [FieldToken(n.entry)] + Tokens(h[1..]) + Tokens(b) + Tokens(t)
           == [FieldToken(n.entry)] + (Tokens(h[1..]) + Tokens(b) + Tokens(t));
  }

  lemma {:induction false} FirstToken(ns: seq<Node>)
    ensures ns == [] ==> Tokens(ns) == []
    ensures ns != [] ==> Tokens(ns) == NodeTokens(ns[0]) + Tokens(ns[1..]) && Tokens(ns)[0] == Written(ns[0])
  {
    hide NodeTokens;
  }

  lemma {:induction false} HeadIs(n: Node)
    requires !n.entry.kind.Group?
    ensures NodeTokens(n) == [FieldToken(n.entry)] && Written(n) == FieldToken(n.entry)
  {
  }

  /** CheckSum, coming last, is the trailer's last node. */
  lemma {:induction false} TailField(dict: Dict, h: seq<Node>, b: seq<Node>, t: seq<Node>)
    requires Conforms(dict, h, b, t) && CheckSumApart(dict) && 10 in dict.trailerTags && 10 !in dict.headerTags
    requires var ws := Tokens(h) + Tokens(b) + Tokens(t);
             ws != [] && ws[|ws| - 1].entry.tag == 10 && ws[|ws| - 1].entry.kind.Field?
    ensures t != [] && IsFieldNode(t[|t| - 1], 10)
    ensures var k := |t| - 1;
            Tokens(h) + Tokens(b) + Tokens(t) == Tokens(h) + Tokens(b) + Tokens(t[..k]) + [FieldToken(t[k].entry)]
  {
    hide Clear, Tokens, NodeTokens, Skips, Fit;
    FirstToken(h);
    FirstToken(b);
    FirstToken(t);
    if t == [] {
      if b != [] {
        LastIsLeaf(dict, b, Top(false), 10);
      } else {
        LastIsLeaf(dict, h, Top(true), 10);
      }
      assert false;
    }
    LastIsLeaf(dict, t, Top(false), 10);
    var k := |t| - 1;
    FitAt(dict, t, Top(false), k);
    HeadIs(t[k]);
    assert t == t[..k] + [t[k]];
    TokensSnoc(t[..k], t[k]);
    assert Tokens(h) + Tokens(b) + (Tokens(t[..k]) + [FieldToken(t[k].entry)])
           == Tokens(h) + Tokens(b) + Tokens(t[..k]) + [FieldToken(t[k].entry)];
  }

  // ---------------------------------------------------------------------
  // Nothing is left out
  // ---------------------------------------------------------------------

  /** No node here is one of the framing fields. */
  predicate NoneFrames(ns: seq<Node>, depth: nat) {
    forall i :: 0 <= i < |ns| ==> !Framing(ns[i].entry, depth)
  }

  /** Every group, at any depth, has instances. */
  predicate Filled(ns: seq<Node>) {
    forall i :: 0 <= i < |ns| ==> FilledNode(ns[i])
  }

  predicate FilledNode(n: Node) {
    (n.entry.kind.Group? ==> n.kids != []) && Filled(n.kids)
  }

  /** Nodes that fit have no instance with nothing to write, and are written as they stand. */
  lemma {:induction false} WrittenWhole(dict: Dict, ns: seq<Node>, ctx: Context, depth: nat)
    requires Fit(dict, ns, ctx) && NoneFrames(ns, depth) && Filled(ns)
    ensures Stripped(ns, depth) == ns && NoneEmpty(ns) && (ns != [] ==> Writes(ns))
    decreases ns, 1
  {
    if ns != [] {
      hide StripNode, NodeFit, Clear;
      assert FilledNode(ns[0]);
      NodeWhole(dict, ns[0], ctx, depth);
      WrittenWhole(dict, ns[1..], ctx, depth);
      assert [ns[0]] + ns[1..] == ns;
    }
  }

  lemma {:induction false} NodeWhole(dict: Dict, n: Node, ctx: Context, depth: nat)
    requires NodeFit(dict, n, ctx) && !Framing(n.entry, depth) && FilledNode(n)
    ensures StripNode(n, depth) == [n] && NoneEmptyIn(n) && ChildWrites(n)
    decreases n, 0
  {
    if n.entry.kind.Group? {
      hide Clear, InstancesFit, Stripped;
      InstancesWhole(dict, n.kids, Opened(dict, ctx, n.entry.tag).value, depth + 1);
      assert n.(kids := n.kids) == n;
    }
  }

  lemma {:induction false} InstancesWhole(dict: Dict, ks: seq<Node>, g: nat, depth: nat)
    requires InstancesFit(dict, ks, g) && depth > 0 && Filled(ks)
    ensures Stripped(ks, depth) == ks && NoneEmpty(ks) && Live(ks) == |ks|
    decreases ks, 2
  {
    if ks != [] {
      hide Clear, Fit, Members;
      var n := ks[0];
      assert FilledNode(n);
      WrittenWhole(dict, n.kids, Within(g), depth);
      InstancesWhole(dict, ks[1..], g, depth);
      assert StripNode(n, depth) == [n.(kids := n.kids)] == [n];
      assert [n] + ks[1..] == ks;
    }
  }

  // ---------------------------------------------------------------------
  // A message in its parts
  // ---------------------------------------------------------------------

  /** A message as it is parsed: the framing fields, and the nodes between them. */
  datatype Parts = Parts(n8: Node, n9: Node, n35: Node, rest: seq<Node>, tail: seq<Node>, n10: Node)

  predicate InParts(doc: Doc, p: Parts) {
    && IsFieldNode(p.n8, 8) && IsFieldNode(p.n9, 9) && IsFieldNode(p.n35, 35) && IsFieldNode(p.n10, 10)
    && Fields(doc.header) == [p.n8] + [p.n9] + [p.n35] + p.rest && doc.trailer == p.tail + [p.n10]
    && NoneFrames(p.rest, 0) && NoneFrames(doc.body, 0) && NoneFrames(p.tail, 0)
  }

  /** The fields between BodyLength and CheckSum. */
  function BodyFields(doc: Doc, p: Parts): seq<Token> {
    [FieldToken(p.n35.entry)] + (Tokens(p.rest) + Tokens(doc.body) + Tokens(p.tail))
  }

  /** Fields as a message has them: the framing fields where they belong, and nowhere else. */
  predicate Framed(ws: seq<Token>) {
    && |ws| > 3
    && (forall k :: 0 <= k < 3 ==> ws[k].entry.tag == FIRST[k] && ws[k].entry.kind.Field?)
    && ws[|ws| - 1].entry.tag == 10 && ws[|ws| - 1].entry.kind.Field?
    && (forall i :: 3 <= i < |ws| - 1 ==> ws[i].entry.tag !in FIRST && ws[i].entry.tag != 10)
  }

  /** Nodes none of whose fields frames. */
  lemma {:induction false} NothingFrames(ns: seq<Node>)
    requires forall i :: 0 <= i < |Tokens(ns)| ==> Tokens(ns)[i].entry.tag !in FIRST && Tokens(ns)[i].entry.tag != 10
    ensures NoneFrames(ns, 0)
    decreases |ns|
  {
    if ns != [] {
      hide NodeTokens, Tokens;
      FirstToken(ns);
      var ws, k := Tokens(ns), |NodeTokens(ns[0])|;
      assert forall i :: 0 <= i < |Tokens(ns[1..])| ==> Tokens(ns[1..])[i] == ws[k + i];
      NothingFrames(ns[1..]);
      assert ws[0].entry.tag !in FIRST && ws[0].entry.tag == ns[0].entry.tag;
      assert 8 == FIRST[0] && 9 == FIRST[1] && 35 == FIRST[2];
    }
  }

  lemma {:induction false} MiddleFields(ws: seq<Token>, a: seq<Token>, x: seq<Token>, c: seq<Token>)
    requires Framed(ws) && |a| >= 3 && |c| >= 1 && ws == a + x + c
    ensures forall i :: 0 <= i < |x| ==> x[i].entry.tag !in FIRST && x[i].entry.tag != 10
  {
    assert forall i :: 0 <= i < |x| ==> x[i] == ws[|a| + i];
  }

  predicate SaneTables(dict: Dict) {
    && (forall k :: 0 <= k < 3 ==> FIRST[k] in dict.headerTags && FIRST[k] !in dict.headerGroups)
    && 10 in dict.trailerTags && 10 !in dict.headerTags
  }

  /** The first three fields are the first three nodes. */
  lemma {:induction false} HeadFields(dict: Dict, h: seq<Node>, b: seq<Node>, t: seq<Node>)
    requires SaneTables(dict) && Conforms(dict, h, b, t) && Framed(Tokens(h) + Tokens(b) + Tokens(t))
    ensures |h| >= 3 && IsFieldNode(h[0], 8) && IsFieldNode(h[1], 9) && IsFieldNode(h[2], 35)
    ensures Conforms(dict, h[3..], b, t)
    ensures Tokens(h) + Tokens(b) + Tokens(t)
            == [FieldToken(h[0].entry), FieldToken(h[1].entry), FieldToken(h[2].entry)]
               + (Tokens(h[3..]) + Tokens(b) + Tokens(t))
  {
    hide Conforms, Tokens;
    var ws := Tokens(h) + Tokens(b) + Tokens(t);
    HeadField(dict, h, b, t, FIRST[0]);
    var h1 := h[1..];
    var ws1 := Tokens(h1) + Tokens(b) + Tokens(t);
    assert ws1[0] == ws[1] && ws1[1] == ws[2];
    HeadField(dict, h1, b, t, FIRST[1]);
    var h2 := h1[1..];
    assert (Tokens(h2) + Tokens(b) + Tokens(t))[0] == ws1[1];
    HeadField(dict, h2, b, t, FIRST[2]);
    assert h1[0] == h[1] && h2[0] == h[2] && h2[1..] == h[3..];
  }

  /** Trees that conform and have a message's fields are in a message's parts. */
  lemma {:induction false} PartsOf(dict: Dict, doc: Doc) returns (p: Parts)
    requires SaneTables(dict) && CheckSumApart(dict) && Conforms(dict, Fields(doc.header), doc.body, doc.trailer)
    requires Framed(Tokens(Fields(doc.header)) + Tokens(doc.body) + Tokens(doc.trailer))
    ensures InParts(doc, p)
    ensures Tokens(Fields(doc.header)) + Tokens(doc.body) + Tokens(doc.trailer)
            == [FieldToken(p.n8.entry), FieldToken(p.n9.entry)] + BodyFields(doc, p) + [FieldToken(p.n10.entry)]
  {
    hide Conforms, Tokens, CheckSumApart, Framed, NoneFrames;
    var h, b, t := Fields(doc.header), doc.body, doc.trailer;
    var ws := Tokens(h) + Tokens(b) + Tokens(t);
    HeadFields(dict, h, b, t);
    var rest := h[3..];
    var a, ws3 := [FieldToken(h[0].entry), FieldToken(h[1].entry), FieldToken(h[2].entry)], Tokens(rest) + Tokens(b) + Tokens(t);
    EndsInCheckSum(ws, a, ws3);
    TailField(dict, rest, b, t);
    var tail, n10 := t[..|t| - 1], t[|t| - 1];
    p := Parts(h[0], h[1], h[2], rest, tail, n10);
    var x, y, z, c := Tokens(rest), Tokens(b), Tokens(tail), [FieldToken(n10.entry)];
    Regrouped(a, x, y, z, c);
    MiddleFields(ws, a, x, y + z + c);
    MiddleFields(ws, a + x, y, z + c);
    MiddleFields(ws, a + x + y, z, c);
    NothingFrames(rest);
    NothingFrames(b);
    NothingFrames(tail);
    assert a + (x + y + z) + c == [a[0], a[1]] + ([a[2]] + (x + y + z)) + c;
  }

  lemma {:induction false} EndsInCheckSum(ws: seq<Token>, a: seq<Token>, x: seq<Token>)
    requires Framed(ws) && ws == a + x && |a| == 3
    ensures x != [] && x[|x| - 1].entry.tag == 10 && x[|x| - 1].entry.kind.Field?
  {
    assert x[|x| - 1] == ws[|ws| - 1];
  }

  lemma {:induction false} Regrouped<T>(a: seq<T>, x: seq<T>, y: seq<T>, z: seq<T>, c: seq<T>)
    ensures a + (x + y + z + c) == a + x + (y + z + c)
    ensures a + (x + y + z + c) == (a + x) + y + (z + c)
    ensures a + (x + y + z + c) == (a + x + y) + z + c
    ensures a + (x + y + z + c) == a + (x + y + z) + c
  {
  }

  lemma {:induction false} FitParts(dict: Dict, a: seq<Node>, b: seq<Node>, ctx: Context)
    requires Fit(dict, a + b, ctx)
    ensures Fit(dict, a, ctx) && Fit(dict, b, ctx)
    decreases |a|
  {
    hide NodeFit, Clear;
    if a == [] {
      assert a + b == b;
    } else {
      assert (a + b)[1..] == a[1..] + b && (a + b)[0] == a[0];
      assert |a| > 1 ==> (a + b)[1] == a[1];
      FitParts(dict, a[1..], b, ctx);
    }
  }

  /** A message in its parts writes all of them, framing fields apart. */
  lemma {:induction false} PartsWritten(dict: Dict, doc: Doc, p: Parts)
    requires WellFormed(doc) && InParts(doc, p) && Conforms(dict, Fields(doc.header), doc.body, doc.trailer)
    requires Filled(p.rest) && Filled(doc.body) && Filled(p.tail)
    ensures StartsAsWritten(doc, p.n8, [p.n9], p.n35, p.rest)
    ensures NoneEmpty(p.rest) && NoneEmpty(doc.body) && NoneEmpty(doc.trailer)
    ensures Stripped(doc.header, 0) == p.rest && Stripped(doc.body, 0) == doc.body && Stripped(doc.trailer, 0) == p.tail
  {
    hide *;
    PartsFit(dict, doc, p);
    WrittenWhole(dict, p.rest, Top(true), 0);
    WrittenWhole(dict, doc.body, Top(false), 0);
    WrittenWhole(dict, p.tail, Top(false), 0);
    GapNowhere(Segments([], []), doc.header);
    StartParts(Segments([], []), p.n8, [p.n9], p.n35, p.rest);
    StrippedAppend(p.tail, [p.n10], 0);
    FramingNode(Segments([], []), p.n10, 10);
    assert p.tail + [] == p.tail;
    NoneEmptyMore(p.tail, p.n10);
  }

  lemma {:induction false} PartsFit(dict: Dict, doc: Doc, p: Parts)
    requires InParts(doc, p) && Conforms(dict, Fields(doc.header), doc.body, doc.trailer)
    ensures StartsAsWritten(doc, p.n8, [p.n9], p.n35, p.rest)
    ensures Fit(dict, p.rest, Top(true)) && Fit(dict, doc.body, Top(false)) && Fit(dict, p.tail, Top(false))
    ensures NoneFrames(p.rest, 0) && NoneFrames(doc.body, 0) && NoneFrames(p.tail, 0)
    ensures Fields(doc.header) == [p.n8] + [p.n9] + [p.n35] + p.rest && doc.trailer == p.tail + [p.n10]
    ensures IsFieldNode(p.n8, 8) && IsFieldNode(p.n9, 9) && IsFieldNode(p.n35, 35) && IsFieldNode(p.n10, 10)
  {
    hide Clear, Fit, Fields;
    FitParts(dict, [p.n8] + [p.n9] + [p.n35], p.rest, Top(true));
    FitParts(dict, p.tail, [p.n10], Top(false));
  }

  lemma {:induction false} NoneEmptyMore(ns: seq<Node>, n: Node)
    requires NoneEmpty(ns) && IsFieldNode(n, 10)
    ensures NoneEmpty(ns + [n])
  {
  }

  lemma {:induction false} PartsVisited(doc: Doc, p: Parts)
    requires WellFormed(doc) && InParts(doc, p) && StartsAsWritten(doc, p.n8, [p.n9], p.n35, p.rest)
    requires Stripped(doc.header, 0) == p.rest && Stripped(doc.body, 0) == doc.body && Stripped(doc.trailer, 0) == p.tail
    ensures Visited(doc) == BodyFields(doc, p)
  {
    hide WellFormed, Stripped, Visited, Tokens, Fields, StartsAsWritten;
    MsgTypeFound(doc, p.n8, [p.n9], p.n35, p.rest);
    Derived();
    WireIsTokens(doc, p.n8, NINE, p.n35, TEN);
    FramingTokens(p.n8, NINE, p.n35);
    TokensAppend([p.n8, NINE, p.n35], p.rest);
    TokensSnoc(p.tail, TEN);
    HeadIs(TEN);
    var a, z := [FieldToken(p.n8.entry), FieldToken(NINE.entry)], [FieldToken(TEN.entry)];
    var x, h, b, t := [FieldToken(p.n35.entry)], Tokens(p.rest), Tokens(doc.body), Tokens(p.tail);
    assert a + x + h + b + (t + z) == a + (x + (h + b + t)) + z;
    Inside(a, Visited(doc), BodyFields(doc, p), z);
  }

  lemma {:induction false} Inside<T>(a: seq<T>, x: seq<T>, y: seq<T>, z: seq<T>)
    requires a + x + z == a + y + z
    ensures x == y
  {
    assert |x| == |y|;
    assert (a + x + z)[|a|..|a| + |x|] == x && (a + y + z)[|a|..|a| + |y|] == y;
  }

  /** A field exchanged for another with its tag. */
  lemma {:induction false} FitExchanged(dict: Dict, a: seq<Node>, n: Node, n': Node, c: seq<Node>, ctx: Context)
    requires Fit(dict, a + ([n] + c), ctx) && IsFieldNode(n, n.entry.tag) && IsFieldNode(n', n.entry.tag)
    ensures Fit(dict, a + ([n'] + c), ctx)
    decreases |a|
  {
    hide Clear;
    var ns, ns' := a + ([n] + c), a + ([n'] + c);
    if a == [] {
      assert ns[1..] == c == ns'[1..] && ns[0] == n && ns'[0] == n';
      Fitting.LeafIsClear(dict, n', ctx, if c == [] then 0 else c[0].entry.tag);
    } else {
      assert ns[1..] == a[1..] + ([n] + c) && ns'[1..] == a[1..] + ([n'] + c);
      FitExchanged(dict, a[1..], n, n', c, ctx);
      hide NodeFit, Fit;
      assert ns'[0] == ns[0] && ns'[1].entry.tag == ns[1].entry.tag;
      FitMore(dict, ns, ns', ctx);
    }
  }

  lemma {:induction false} FitMore(dict: Dict, ns: seq<Node>, ns': seq<Node>, ctx: Context)
    requires Fit(dict, ns, ctx) && |ns| == |ns'| > 1 && ns'[0] == ns[0] && ns'[1].entry.tag == ns[1].entry.tag
    requires Fit(dict, ns'[1..], ctx)
    ensures Fit(dict, ns', ctx)
  {
    hide Clear, NodeFit;
  }

  /** BodyLength and CheckSum, worked out anew, conform as those that came did. */
  lemma {:induction false} PartsConform(dict: Dict, doc: Doc, p: Parts)
    requires InParts(doc, p) && Conforms(dict, Fields(doc.header), doc.body, doc.trailer)
    ensures Conforms(dict, [p.n8, NINE, p.n35] + p.rest, doc.body, p.tail + [TEN])
  {
    hide Clear, Fit, Fields, NoneFrames;
    Derived();
    var h, h' := Fields(doc.header), [p.n8, NINE, p.n35] + p.rest;
    assert h == [p.n8] + ([p.n9] + ([p.n35] + p.rest)) && h' == [p.n8] + ([NINE] + ([p.n35] + p.rest));
    FitExchanged(dict, [p.n8], p.n9, NINE, [p.n35] + p.rest, Top(true));
    assert p.tail + [p.n10] == p.tail + ([p.n10] + []) && p.tail + [TEN] == p.tail + ([TEN] + []);
    FitExchanged(dict, p.tail, p.n10, TEN, [], Top(false));
    SameTags(dict, h, h', Header);
    SameTags(dict, doc.trailer, p.tail + [TEN], Trailer);
    assert h[|h| - 1] == h'[|h'| - 1];
    assert (p.tail + [TEN])[0].entry.tag == doc.trailer[0].entry.tag;
  }

  lemma {:induction false} SameTags(dict: Dict, ns: seq<Node>, ns': seq<Node>, r: Region)
    requires AllStay(dict, r, ns) && |ns'| == |ns|
    requires forall i :: 0 <= i < |ns| ==> ns'[i].entry.tag == ns[i].entry.tag
    ensures AllStay(dict, r, ns')
  {
  }

  // ---------------------------------------------------------------------
  // What came can be written
  // ---------------------------------------------------------------------

  lemma {:induction false} ReadIsSmall(s: seq<Byte>, v: nat)
    requires ReadFrom(s, v).Number? && v <= MAX_UINT
    ensures ReadFrom(s, v).value <= MAX_UINT
    decreases |s|
  {
    if s != [] {
      ReadIsSmall(s[1..], v * 10 + (s[0] - ZERO));
    }
  }

  /** A number is written with no more digits than it was read from. */
  lemma {:induction false} WrittenNoLonger(s: seq<Byte>, n: nat)
    requires NumberOf(s) == Some(n)
    ensures |Digits(n)| <= |s| && n <= MAX_UINT
    decreases |s|
  {
    ReadIsSmall(s, 0);
    var k := |s| - 1;
    var a, c := s[..k], s[k];
    assert s == a + [c];
    AllDigits(s, 0);
    if a != [] {
      ReadFromAppend(a, c, 0);
      WrittenNoLonger(a, ReadFrom(a, 0).value);
      assert n / 10 == ReadFrom(a, 0).value;
    }
  }

  /** A field that came, where it came. */
  predicate Came(buf: seq<Byte>, wire: seq<Byte>, delimiter: Byte, t: Token, w: Token) {
    Spells(buf, delimiter, t) && SameText(buf, wire, t.entry) && Alike(t, w)
  }

  lemma {:induction false} CameClean(buf: seq<Byte>, wire: seq<Byte>, delimiter: Byte, t: Token, w: Token)
    requires Came(buf, wire, delimiter, t, w)
    ensures var segs := Segments(wire, []);
            && Clean(segs, w, delimiter) && Stored(segs, w) && w.entry.tag == t.entry.tag && w.entry.kind == t.entry.kind
            && (w.number.None? ==> Said(segs, w) == Text(buf, t.entry))
            && |TokenBytes(segs, w, SOH)| <= End(t.entry) - t.entry.off
  {
    hide Digits, NumberOf;
    var e := t.entry;
    assert |buf[e.off..e.off + e.valOff]| == e.valOff;
    if w.number.Some? {
      WrittenNoLonger(Text(buf, e), w.number.value);
    } else {
      assert e.(seg := Wire) == e && e.(depth := 0) == e;
    }
  }

  ghost predicate AllCame(buf: seq<Byte>, wire: seq<Byte>, delimiter: Byte, ts: seq<Token>, ws: seq<Token>) {
    |ts| == |ws| && forall i :: 0 <= i < |ts| ==> Came(buf, wire, delimiter, ts[i], ws[i])
  }

  lemma {:induction false} AllCameClean(buf: seq<Byte>, wire: seq<Byte>, delimiter: Byte, ts: seq<Token>, ws: seq<Token>)
    requires AllCame(buf, wire, delimiter, ts, ws)
    ensures AllClean(Segments(wire, []), ws, delimiter) && AllStored(Segments(wire, []), ws)
  {
    hide Came, Clean;
    forall i | 0 <= i < |ws|
      ensures Clean(Segments(wire, []), ws[i], delimiter) && Stored(Segments(wire, []), ws[i])
    {
      CameClean(buf, wire, delimiter, ts[i], ws[i]);
    }
  }

  /** The body is no longer than it was. */
  lemma {:induction false} BodyNoLonger(buf: seq<Byte>, wire: seq<Byte>, delimiter: Byte, ts: seq<Token>, ws: seq<Token>)
    requires AllCame(buf, wire, delimiter, ts, ws) && AllStored(Segments(wire, []), ws) && ts != []
    requires forall i :: 0 < i < |ts| ==> ts[i].entry.off == End(ts[i - 1].entry)
    ensures |BodyBytes(Segments(wire, []), ws, SOH)| <= End(ts[|ts| - 1].entry) - ts[0].entry.off
    decreases |ts|
  {
    hide Came, TokenBytes;
    var k := |ts| - 1;
    CameClean(buf, wire, delimiter, ts[k], ws[k]);
    if k > 0 {
      BodyNoLonger(buf, wire, delimiter, ts[..k], ws[..k]);
    } else {
      assert ws[..k] == [];
    }
  }

  /** The same fields as far as Lengths and data go. */
  predicate ChainsAs(t: Token, l: Token) {
    && l.entry.tag == t.entry.tag && l.entry.kind == t.entry.kind
    && (t.entry.kind.Data? ==> l.entry.len == t.entry.len) && (t.entry.kind.DataLen? ==> l.number == t.number)
  }

  lemma {:induction false} ChainedAs(d: Dictionary, pending: Option<Announced>, ts: seq<Token>, ls: seq<Token>)
    requires Chained(d, pending, ts) && |ls| == |ts| && forall i :: 0 <= i < |ts| ==> ChainsAs(ts[i], ls[i])
    ensures Chained(d, pending, ls)
    decreases |ts|
  {
    if ts != [] {
      assert ChainsAs(ts[0], ls[0]);
      ChainedAs(d, Announcing(d, ts[0]), ts[1..], ls[1..]);
      assert Announcing(d, ls[0]) == Announcing(d, ts[0]);
    }
  }

  lemma {:induction false} LabelsChain(buf: seq<Byte>, wire: seq<Byte>, delimiter: Byte, ts: seq<Token>, ws: seq<Token>,
                                       at: nat)
    requires AllCame(buf, wire, delimiter, ts, ws) && AllStored(Segments(wire, []), ws)
    ensures var ls := Labels(Segments(wire, []), ws, at);
            forall i :: 0 <= i < |ts| ==> ChainsAs(ts[i], ls[i])
    decreases |ts|
  {
    if ts != [] {
      hide TokenBytes, Label, ChainsAs, Came, Labels;
      var segs := Segments(wire, []);
      RestStored(segs, ws);
      var next := at + |TokenBytes(segs, ws[0], SOH)|;
      LabelsOne(segs, ws, at);
      CameRest(buf, wire, delimiter, ts, ws);
      hide AllCame;
      LabelChains(buf, wire, delimiter, ts[0], ws[0], at);
      LabelsChain(buf, wire, delimiter, ts[1..], ws[1..], next);
      ChainMore(ts, Label(segs, ws[0], at), Labels(segs, ws[1..], next));
    }
  }

  lemma {:induction false} CameRest(buf: seq<Byte>, wire: seq<Byte>, delimiter: Byte, ts: seq<Token>, ws: seq<Token>)
    requires AllCame(buf, wire, delimiter, ts, ws) && ts != []
    ensures |ws| == |ts| && Came(buf, wire, delimiter, ts[0], ws[0])
    ensures AllCame(buf, wire, delimiter, ts[1..], ws[1..])
  {
    hide Came;
  }

  lemma {:induction false} ChainMore(ts: seq<Token>, l: Token, ls: seq<Token>)
    requires ts != [] && |ls| == |ts| - 1 && ChainsAs(ts[0], l)
    requires forall i :: 0 <= i < |ls| ==> ChainsAs(ts[1..][i], ls[i])
    ensures forall i :: 0 <= i < |ts| ==> ChainsAs(ts[i], ([l] + ls)[i])
  {
    hide ChainsAs;
    forall i | 0 <= i < |ts|
      ensures ChainsAs(ts[i], ([l] + ls)[i])
    {
      if i > 0 {
        assert ChainsAs(ts[1..][i - 1], ls[i - 1]);
      }
    }
  }

  lemma {:induction false} LabelChains(buf: seq<Byte>, wire: seq<Byte>, delimiter: Byte, t: Token, w: Token, at: nat)
    requires Came(buf, wire, delimiter, t, w) && Stored(Segments(wire, []), w)
    ensures ChainsAs(t, Label(Segments(wire, []), w, at))
  {
    hide Digits, NumberOf;
    CameClean(buf, wire, delimiter, t, w);
  }

  /** Fields behind the first two and before the last. */
  lemma {:induction false} ChainedWithin(d: Dictionary, ts: seq<Token>)
    requires Chained(d, None, ts) && |ts| > 3
    requires ts[0].entry.kind.Field? && ts[1].entry.kind.Field? && ts[|ts| - 1].entry.kind.Field?
    ensures Chained(d, None, ts[2..|ts| - 1])
  {
    assert ts[1..][0] == ts[1] && ts[1..][1..] == ts[2..];
    assert Chained(d, None, ts[1..]);
    assert Chained(d, None, ts[1..][1..]);
    var k := |ts| - 3;
    assert ts[2..][k] == ts[|ts| - 1] && ts[2..][..k] == ts[2..|ts| - 1];
    ChainedBefore(d, None, ts[2..]);
  }

  lemma {:induction false} ChainedBefore(d: Dictionary, pending: Option<Announced>, ts: seq<Token>)
    requires Chained(d, pending, ts) && ts != [] && ts[|ts| - 1].entry.kind.Field?
    ensures Chained(d, pending, ts[..|ts| - 1])
    decreases |ts|
  {
    var k := |ts| - 1;
    if k > 0 {
      ChainedBefore(d, Announcing(d, ts[0]), ts[1..]);
      assert ts[..k][1..] == ts[1..][..k - 1];
    }
  }

  // ---------------------------------------------------------------------
  // Messages that came
  // ---------------------------------------------------------------------

  lemma {:induction false} TiledAt(buf: seq<Byte>, delimiter: Byte, ts: seq<Token>, from: nat, i: nat)
    requires Tiled(buf, delimiter, ts, from) && i < |ts|
    ensures Spells(buf, delimiter, ts[i]) && (i > 0 ==> ts[i].entry.off == End(ts[i - 1].entry))
    decreases |ts|
  {
    hide Spells;
    if i > 0 {
      TiledAt(buf, delimiter, ts[1..], End(ts[0].entry), i - 1);
      assert i == 1 ==> ts[1..][0].entry.off == End(ts[0].entry);
    }
  }

  /** A message's fields are framed. */
  lemma {:induction false} MessageFramed(d: Dictionary, buf: seq<Byte>, delimiter: Byte, ts: seq<Token>, dict: Dict)
    requires Sane(d) && IsMessage(d, buf, delimiter, ts) && CheckSumApart(dict) && dict.dataOf == d.dataOf
    ensures Framed(ts)
  {
    hide Tiled, Chained, SohChecksum, Skips, Digits;
    P.MessageFields(d, buf, delimiter, ts, dict);
    var n := |ts|;
    assert forall i :: 3 <= i < n ==> ts[i] == ts[3..][i - 3];
    assert ts[n - 1] == ts[3..][n - 4];
    PlainKind(dict, ts, 0);
    PlainKind(dict, ts, 1);
    PlainKind(dict, ts, 2);
    PlainKind(dict, ts, n - 1);
  }

  /** Neither a Length nor data. */
  lemma {:induction false} PlainKind(dict: Dict, ts: seq<Token>, i: nat)
    requires AllFieldTokens(ts) && WellPaired(dict, ts) && i < |ts| && ts[i].entry.tag !in dict.dataOf
    requires (i > 0 ==> !ts[i - 1].entry.kind.DataLen?) || forall l :: l in dict.dataOf ==> dict.dataOf[l] != ts[i].entry.tag
    ensures ts[i].entry.kind.Field?
  {
  }

  lemma {:induction false} FramedAlike(ts: seq<Token>, ws: seq<Token>)
    requires Framed(ts) && AllAlike(ts, ws)
    ensures Framed(ws)
  {
    assert forall i :: 0 <= i < |ts| ==> Alike(ts[i], ws[i]);
    assert forall i :: 0 <= i < |ts| ==> ws[i].entry.tag == ts[i].entry.tag && ws[i].entry.kind == ts[i].entry.kind;
  }

  lemma {:induction false} MessageCame(d: Dictionary, buf: seq<Byte>, delimiter: Byte, ts: seq<Token>, ws: seq<Token>)
    requires IsMessage(d, buf, delimiter, ts) && AllAlike(ts, ws)
    ensures forall i :: 0 <= i < |ts| ==> End(ts[i].entry) <= |buf|
    ensures AllCame(buf, Rewired(buf, ts), delimiter, ts, ws)
    ensures forall i :: 0 < i < |ts| ==> ts[i].entry.off == End(ts[i - 1].entry)
  {
    MessageTiled(d, buf, delimiter, ts);
    hide IsMessage, Tiled, Spells, Alike, SameText, Rewired;
    RewiredKeeps(buf, delimiter, ts, 0);
    forall i | 0 <= i < |ts|
      ensures Came(buf, Rewired(buf, ts), delimiter, ts[i], ws[i]) && (i > 0 ==> ts[i].entry.off == End(ts[i - 1].entry))
    {
      TiledAt(buf, delimiter, ts, 0, i);
    }
  }

  /** The fields between BodyLength and CheckSum, as they came and as they are written. */
  lemma {:induction false} BodyCame(buf: seq<Byte>, wire: seq<Byte>, delimiter: Byte, ts: seq<Token>, ws: seq<Token>,
                                    a: seq<Token>, x: seq<Token>, c: seq<Token>)
    requires AllCame(buf, wire, delimiter, ts, ws) && ws == a + x + c && |a| == 2 && |c| == 1
    ensures AllCame(buf, wire, delimiter, ts[2..|ts| - 1], x)
  {
    hide Came;
    forall i | 0 <= i < |x|
      ensures Came(buf, wire, delimiter, ts[2..|ts| - 1][i], x[i])
    {
      assert ws[i + 2] == x[i] && Came(buf, wire, delimiter, ts[i + 2], ws[i + 2]);
    }
  }

  /** BodyLength is as large as it says, so the body is no longer than it may be. */
  lemma {:induction false} BodyFits(d: Dictionary, buf: seq<Byte>, wire: seq<Byte>, delimiter: Byte, ts: seq<Token>,
                                    x: seq<Token>)
    requires IsMessage(d, buf, delimiter, ts) && AllCame(buf, wire, delimiter, ts[2..|ts| - 1], x)
    requires AllStored(Segments(wire, []), x)
    requires forall i :: 0 < i < |ts| ==> ts[i].entry.off == End(ts[i - 1].entry)
    ensures |BodyBytes(Segments(wire, []), x, SOH)| <= MAX_UINT
  {
    hide Tiled, Chained, RestRules, FieldRule, SohChecksum, ThreeOf, Came, BodyBytes, Digits, NumberOf;
    var n := |ts|;
    var mid := ts[2..n - 1];
    assert forall i :: 0 <= i < |mid| ==> mid[i] == ts[i + 2];
    BodyNoLonger(buf, wire, delimiter, mid, x);
    MessageTiled(d, buf, delimiter, ts);
    TiledAt(buf, delimiter, ts, 0, 1);
    assert ts[1].number == NumberOf(Text(buf, ts[1].entry));
    WrittenNoLonger(Text(buf, ts[1].entry), ts[1].number.value);
  }

  lemma {:induction false} BodyChained(d: Dictionary, buf: seq<Byte>, wire: seq<Byte>, delimiter: Byte, ts: seq<Token>,
                                       x: seq<Token>)
    requires IsMessage(d, buf, delimiter, ts) && Framed(ts) && AllCame(buf, wire, delimiter, ts[2..|ts| - 1], x)
    requires AllStored(Segments(wire, []), x)
    ensures Chained(d, None, Labels(Segments(wire, []), x, 0))
  {
    hide Tiled, Chained, RestRules, FieldRule, SohChecksum, ThreeOf, Came, Labels, ChainsAs;
    ChainedWithin(d, ts);
    LabelsChain(buf, wire, delimiter, ts[2..|ts| - 1], x, 0);
    ChainedAs(d, None, ts[2..|ts| - 1], Labels(Segments(wire, []), x, 0));
  }

  /** What the leading fields say. */
  lemma {:induction false} LeadersSay(d: Dictionary, buf: seq<Byte>, delimiter: Byte, ts: seq<Token>)
    requires IsMessage(d, buf, delimiter, ts) && Framed(ts)
    ensures End(ts[0].entry) <= |buf| && Text(buf, ts[0].entry) == d.beginString
    ensures d.beginString != [] && delimiter !in d.beginString
    ensures End(ts[2].entry) <= |buf| && AllAlphanumeric(Text(buf, ts[2].entry))
  {
    hide Tiled, Chained, RestRules, SohChecksum, ThreeOf, Digits, NumberOf, AllAlphanumeric;
    MessageTiled(d, buf, delimiter, ts);
    TiledAt(buf, delimiter, ts, 0, 0);
    assert FieldRule(d, buf, 0, ts[0]) && FieldRule(d, buf, 2, ts[2]);
  }

  /** What came can be written. */
  lemma {:induction false} CameWritable(d: Dictionary, buf: seq<Byte>, wire: seq<Byte>, delimiter: Byte, ts: seq<Token>,
                                        ws: seq<Token>, a: seq<Token>, x: seq<Token>, c: seq<Token>)
    requires IsMessage(d, buf, delimiter, ts) && Framed(ts) && Framed(ws) && !IsDigit(delimiter)
    requires AllCame(buf, wire, delimiter, ts, ws) && ws == a + x + c && |a| == 2 && |c| == 1
    requires forall i :: 0 < i < |ts| ==> ts[i].entry.off == End(ts[i - 1].entry)
    requires x[0].number.None?
    ensures Writable(d, Segments(wire, []), x, delimiter)
    ensures Said(Segments(wire, []), x[0]) == Text(buf, ts[2].entry)
  {
    hide IsMessage, Came, Labels, Chained, BodyBytes, AllAlphanumeric, Clean, Said;
    BodyCame(buf, wire, delimiter, ts, ws, a, x, c);
    AllCameClean(buf, wire, delimiter, ts[2..|ts| - 1], x);
    BodyFits(d, buf, wire, delimiter, ts, x);
    BodyChained(d, buf, wire, delimiter, ts, x);
    LeadersSay(d, buf, delimiter, ts);
    assert x[0] == ws[2] && forall i :: 1 <= i < |x| ==> x[i] == ws[i + 2];
    CameClean(buf, wire, delimiter, ts[2], ws[2]);
  }

  /** BeginString came with the message. */
  lemma {:induction false} BeginsCame(d: Dictionary, buf: seq<Byte>, wire: seq<Byte>, delimiter: Byte,
                                      ts: seq<Token>, n8: Node)
    requires IsMessage(d, buf, delimiter, ts) && Framed(ts) && IsFieldNode(n8, 8)
    requires Came(buf, wire, delimiter, ts[0], FieldToken(n8.entry))
    ensures Begins(d, Segments(wire, []), n8)
  {
    hide IsMessage, Digits, NumberOf;
    LeadersSay(d, buf, delimiter, ts);
    var e := ts[0].entry;
    assert |buf[e.off..e.off + e.valOff]| == e.valOff;
    assert e.(seg := Wire) == e;
  }

  // ---------------------------------------------------------------------
  // Sent on
  // ---------------------------------------------------------------------

  /** No group is there without instances. */
  predicate NoneHollow(tape: seq<Entry>) {
    forall k :: 0 <= k < |tape| && tape[k].kind.Group? ==> tape[k].off > 0
  }

  lemma {:induction false} HollowParts(a: seq<Entry>, b: seq<Entry>)
    requires NoneHollow(a + b)
    ensures NoneHollow(a) && NoneHollow(b)
  {
    assert forall k :: 0 <= k < |a| ==> a[k] == (a + b)[k];
    assert forall k :: 0 <= k < |b| ==> b[k] == (a + b)[|a| + k];
  }

  lemma {:induction false} FilledOnTape(ns: seq<Node>, group: bool, depth: nat)
    requires (forall i :: 0 <= i < |ns| ==> ShapedNode(ns[i], group)) && NoneHollow(Flat(ns, depth))
    ensures Filled(ns)
    decreases ns, 1
  {
    if ns != [] {
      hide FlatNode, NoneHollow, ShapedNode, FilledNode;
      HollowParts(FlatNode(ns[0], depth), Flat(ns[1..], depth));
      NodeFilled(ns[0], group, depth);
      FilledOnTape(ns[1..], group, depth);
      assert forall i :: 1 <= i < |ns| ==> ns[i] == ns[1..][i - 1];
    }
  }

  lemma {:induction false} NodeFilled(n: Node, group: bool, depth: nat)
    requires ShapedNode(n, group) && NoneHollow(FlatNode(n, depth))
    ensures FilledNode(n)
    decreases n, 0
  {
    hide Flat;
    assert FlatNode(n, depth)[0] == Head(n, depth);
    if group || n.entry.kind.Group? {
      HollowParts([Head(n, depth)], Flat(n.kids, KidDepth(n, depth)));
      FilledOnTape(n.kids, !group, KidDepth(n, depth));
    }
  }

  lemma {:induction false} MessageFilled(doc: Doc, p: Parts)
    requires WellFormed(doc) && InParts(doc, p) && NoneHollow(ImageOf(doc).tape)
    ensures Filled(p.rest) && Filled(doc.body) && Filled(p.tail)
  {
    var h := Fields(doc.header);
    assert doc.header == h + doc.header[|h|..];
    FlatAppend(h, doc.header[|h|..], 0);
    hide Flat, NoneHollow, ShapedNode, FilledNode;
    HollowParts(Flat(doc.header, 0) + Flat(doc.body, 0), Flat(doc.trailer, 0));
    HollowParts(Flat(doc.header, 0), Flat(doc.body, 0));
    HollowParts(Flat(h, 0), Flat(doc.header[|h|..], 0));
    FilledOnTape(h, false, 0);
    FilledOnTape(doc.body, false, 0);
    FilledOnTape(doc.trailer, false, 0);
    assert forall i :: 0 <= i < |p.rest| ==> p.rest[i] == h[i + 3];
    assert forall i :: 0 <= i < |p.tail| ==> p.tail[i] == doc.trailer[i];
  }

  /** A dictionary in which CheckSum is a plain field, whatever the message. */
  ghost predicate CheckSumPlain(d: Dictionary) {
    forall msgType :: CheckSumApart(Tables(d, msgType))
  }

  /** What was accepted, as trees that conform. */
  lemma {:induction false} AcceptedConforms(d: Dictionary, buf: seq<Byte>, delimiter: Byte, m: Machine)
    returns (ts: seq<Token>, doc: Doc)
    requires Sane(d) && PairsTogether(Tables(d, None)) && ParsedBytes(d, buf, delimiter) == Ok(m)
    ensures ts == FieldsFrom(d, buf, delimiter, START) && IsMessage(d, buf, delimiter, ts)
    ensures WellFormed(doc) && ImageOf(doc) == Image(m.tape, m.bodyStart, m.trailerStart)
    ensures AllAlike(ts, Tokens(Fields(doc.header)) + Tokens(doc.body) + Tokens(doc.trailer))
    ensures |ts| > 3 && End(ts[2].entry) <= |buf|
    ensures Conforms(Tables(d, MsgTypeOf(buf, ts)), Fields(doc.header), doc.body, doc.trailer)
  {
    hide *;
    ts := AcceptedIsMessage(d, buf, delimiter);
    P.MessageParts(d, buf, delimiter, ts);
    var msgType := MsgTypeOf(buf, ts);
    var dict := Tables(d, msgType);
    P.TablesData(d, msgType);
    P.MessageFields(d, buf, delimiter, ts, dict);
    P.PairsStay(d, None, msgType);
    doc := ParsedIsWellFormed(dict, ts, m);
  }

  lemma {:induction false} TablesSane(d: Dictionary, msgType: Option<seq<Byte>>)
    requires Sane(d) && CheckSumPlain(d)
    ensures SaneTables(Tables(d, msgType)) && CheckSumApart(Tables(d, msgType)) && Tables(d, msgType).dataOf == d.dataOf
  {
    assert CheckSumApart(Tables(d, msgType));
    hide CheckSumApart;
  }

  /** The bytes of a message that was accepted, with SOH where its fields end. */
  predicate Over(d: Dictionary, buf: seq<Byte>, delimiter: Byte, segs: Segments) {
    var ts := FieldsFrom(d, buf, delimiter, START);
    (forall i :: 0 <= i < |ts| ==> End(ts[i].entry) <= |buf|) && segs == Segments(Rewired(buf, ts), [])
  }

  /** It meets what the round trip asks for. */
  predicate CanBeSent(d: Dictionary, segs: Segments, doc: Doc, p: Parts, delimiter: Byte) {
    && WellFormed(doc) && StartsAsWritten(doc, p.n8, [p.n9], p.n35, p.rest) && Begins(d, segs, p.n8)
    && NoneEmpty(p.rest) && NoneEmpty(doc.body) && NoneEmpty(doc.trailer)
    && Writable(d, segs, Visited(doc), delimiter)
    && Conforms(Tables(d, Some(Said(segs, Visited(doc)[0]))), [p.n8, NINE, p.n35] + Stripped(doc.header, 0),
                Stripped(doc.body, 0), Stripped(doc.trailer, 0) + [TEN])
  }

  /** A message that was accepted, with no group without instances, can be sent. */
  lemma {:induction false} AcceptedCanBeSent(d: Dictionary, buf: seq<Byte>, delimiter: Byte, m: Machine)
    returns (segs: Segments, doc: Doc, p: Parts)
    requires Sane(d) && PairsTogether(Tables(d, None)) && CheckSumPlain(d) && !IsDigit(delimiter)
    requires ParsedBytes(d, buf, delimiter) == Ok(m) && NoneHollow(m.tape)
    ensures Over(d, buf, delimiter, segs) && ImageOf(doc) == Image(m.tape, m.bodyStart, m.trailerStart)
    ensures CanBeSent(d, segs, doc, p, delimiter)
  {
    hide *;
    var ts;
    ts, doc := AcceptedConforms(d, buf, delimiter, m);
    var dict := Tables(d, MsgTypeOf(buf, ts));
    TablesSane(d, MsgTypeOf(buf, ts));
    MessageFramed(d, buf, delimiter, ts, dict);
    var ws := Tokens(Fields(doc.header)) + Tokens(doc.body) + Tokens(doc.trailer);
    FramedAlike(ts, ws);
    p := PartsOf(dict, doc);
    MessageFilled(doc, p);
    PartsWritten(dict, doc, p);
    PartsVisited(doc, p);
    PartsConform(dict, doc, p);
    MessageCame(d, buf, delimiter, ts, ws);
    segs := Segments(Rewired(buf, ts), []);
    OverIs(d, buf, delimiter, ts);
    SentOn(d, buf, segs.wire, delimiter, ts, ws, doc, p);
    MeetsAll(d, segs, doc, p, delimiter, dict);
  }

  lemma {:induction false} OverIs(d: Dictionary, buf: seq<Byte>, delimiter: Byte, ts: seq<Token>)
    requires ts == FieldsFrom(d, buf, delimiter, START) && forall i :: 0 <= i < |ts| ==> End(ts[i].entry) <= |buf|
    ensures Over(d, buf, delimiter, Segments(Rewired(buf, ts), []))
  {
    hide FieldsFrom, Rewired;
  }

  lemma {:induction false} MeetsAll(d: Dictionary, segs: Segments, doc: Doc, p: Parts, delimiter: Byte, dict: Dict)
    requires WellFormed(doc) && StartsAsWritten(doc, p.n8, [p.n9], p.n35, p.rest) && Begins(d, segs, p.n8)
    requires NoneEmpty(p.rest) && NoneEmpty(doc.body) && NoneEmpty(doc.trailer)
    requires Stripped(doc.header, 0) == p.rest && Stripped(doc.body, 0) == doc.body && Stripped(doc.trailer, 0) == p.tail
    requires Visited(doc) == BodyFields(doc, p) && Writable(d, segs, BodyFields(doc, p), delimiter)
    requires Conforms(dict, [p.n8, NINE, p.n35] + p.rest, doc.body, p.tail + [TEN])
    requires dict == Tables(d, Some(Said(segs, BodyFields(doc, p)[0])))
    ensures CanBeSent(d, segs, doc, p, delimiter)
  {
    hide WellFormed, StartsAsWritten, Begins, NoneEmpty, Stripped, Visited, BodyFields, Conforms, Tables, Said;
  }

  /**
   * A message that was accepted can be sent on: unless a group in it has no instances, what is
   * encoded of it, under the delimiter it came with, is accepted, and is equal to it.
   */
  lemma {:induction false} ForwardedReadsBack(d: Dictionary, buf: seq<Byte>, delimiter: Byte, m: Machine)
    returns (segs: Segments, doc: Doc, m': Machine)
    requires Sane(d) && PairsTogether(Tables(d, None)) && CheckSumPlain(d) && !IsDigit(delimiter)
    requires ParsedBytes(d, buf, delimiter) == Ok(m) && NoneHollow(m.tape)
    ensures Over(d, buf, delimiter, segs) && ImageOf(doc) == Image(m.tape, m.bodyStart, m.trailerStart)
    ensures AllStored(segs, Visited(doc))
    ensures var sent := Encoded(segs, Visited(doc), d.beginString, delimiter);
            var ts := FieldsFrom(d, sent, delimiter, START);
            && ParsedBytes(d, sent, delimiter) == Ok(m')
            && (forall i :: 0 <= i < |ts| ==> End(ts[i].entry) <= |sent|)
            && SameMessage(segs, m.tape, Segments(Rewired(sent, ts), []), m'.tape)
  {
    var p;
    segs, doc, p := AcceptedCanBeSent(d, buf, delimiter, m);
    assert CanBeSent(d, segs, doc, p, delimiter);
    hide WellFormed, StartsAsWritten, Begins, NoneEmpty, Stripped, Visited, Conforms, Tables, Said, Writable, Sane;
    hide ParsedBytes, Encoded, FieldsFrom, Rewired, SameMessage, ImageOf, NoneHollow, PairsTogether, CheckSumPlain, Over;
    WritableStored(d, segs, Visited(doc), delimiter);
    m' := BytesRoundTrip(d, segs, doc, p.n8, [p.n9], p.n35, p.rest, delimiter);
  }

  lemma {:induction false} SentOn(d: Dictionary, buf: seq<Byte>, wire: seq<Byte>, delimiter: Byte, ts: seq<Token>,
                                  ws: seq<Token>, doc: Doc, p: Parts)
    requires IsMessage(d, buf, delimiter, ts) && Framed(ts) && Framed(ws) && !IsDigit(delimiter)
    requires AllCame(buf, wire, delimiter, ts, ws) && InParts(doc, p)
    requires ws == [FieldToken(p.n8.entry), FieldToken(p.n9.entry)] + BodyFields(doc, p) + [FieldToken(p.n10.entry)]
    requires forall i :: 0 < i < |ts| ==> ts[i].entry.off == End(ts[i - 1].entry)
    ensures Writable(d, Segments(wire, []), BodyFields(doc, p), delimiter) && Begins(d, Segments(wire, []), p.n8)
    ensures End(ts[2].entry) <= |buf| && |ts| > 3
    ensures Some(Said(Segments(wire, []), BodyFields(doc, p)[0])) == MsgTypeOf(buf, ts)
  {
    hide IsMessage, Came, Writable, Begins, Said, Tokens;
    var x := BodyFields(doc, p);
    assert x[0] == FieldToken(p.n35.entry);
    CameWritable(d, buf, wire, delimiter, ts, ws, [FieldToken(p.n8.entry), FieldToken(p.n9.entry)], x,
                 [FieldToken(p.n10.entry)]);
    assert Came(buf, wire, delimiter, ts[0], ws[0]);
    BeginsCame(d, buf, wire, delimiter, ts, p.n8);
    LeadersSay(d, buf, delimiter, ts);
  }
}
