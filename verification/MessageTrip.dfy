/**
 * Whole messages through their bytes (message/encode.rs, message/parse.rs): a message that is
 * encoded parses to a message equal to it, under any delimiter.
 */
module MessageTrip {
  import opened Tape
  import opened Document
  import opened Groups
  import opened Numerals
  import opened Storage
  import opened Output
  import opened Shape
  import opened Parsing
  import opened RoundTrip
  import opened Encoding
  import opened Equality
  import opened Lexing
  import opened Legible
  import opened Machines
  import opened WireTrip

  // ---------------------------------------------------------------------
  // Delimiters put back
  // ---------------------------------------------------------------------

  /** The bytes with SOH at the end of each field. */
  function Rewired(buf: seq<Byte>, ts: seq<Token>): (s: seq<Byte>)
    requires forall i :: 0 <= i < |ts| ==> End(ts[i].entry) <= |buf|
    ensures |s| == |buf|
    decreases |ts|
  {
    if ts == [] then buf else Rewired(buf[End(ts[0].entry) - 1 := SOH], ts[1..])
  }

  lemma {:induction false} TiledWithin(buf: seq<Byte>, delimiter: Byte, ts: seq<Token>, from: nat)
    requires Tiled(buf, delimiter, ts, from)
    ensures from <= |buf|
    ensures forall i :: 0 <= i < |ts| ==> from <= ts[i].entry.off && End(ts[i].entry) <= |buf| && ts[i].entry.seg.Wire?
    decreases |ts|
  {
    hide Digits;
    if ts != [] {
      TiledWithin(buf, delimiter, ts[1..], End(ts[0].entry));
      assert forall i :: 1 <= i < |ts| ==> ts[i] == ts[1..][i - 1];
    }
  }

  /** Fields that come after an index do not depend on the bytes before it. */
  lemma {:induction false} TiledElsewhere(buf: seq<Byte>, buf': seq<Byte>, delimiter: Byte, ts: seq<Token>, from: nat)
    requires Tiled(buf, delimiter, ts, from) && from <= |buf| == |buf'| && buf'[from..] == buf[from..]
    ensures Tiled(buf', delimiter, ts, from)
    decreases |ts|
  {
    if ts != [] {
      var e := ts[0].entry;
      SpellsElsewhere(buf, buf', delimiter, ts[0], from);
      assert buf'[End(e)..] == buf'[from..][End(e) - from..] && buf[End(e)..] == buf[from..][End(e) - from..];
      TiledElsewhere(buf, buf', delimiter, ts[1..], End(e));
    }
  }

  lemma {:induction false} SpellsElsewhere(buf: seq<Byte>, buf': seq<Byte>, delimiter: Byte, t: Token, from: nat)
    requires Spells(buf, delimiter, t) && from <= t.entry.off && |buf| == |buf'| && buf'[from..] == buf[from..]
    ensures Spells(buf', delimiter, t)
  {
    hide Digits, NumberOf;
    var e := t.entry;
    forall i | from <= i < |buf|
      ensures buf'[i] == buf[i]
    {
      assert buf'[from..][i - from] == buf[from..][i - from];
    }
    assert buf'[e.off..e.off + e.valOff] == buf[e.off..e.off + e.valOff];
    assert Text(buf', e) == Text(buf, e);
  }

  /** The same values, and every field ends in SOH. */
  predicate SameTexts(buf: seq<Byte>, s: seq<Byte>, ts: seq<Token>) {
    |s| == |buf| && forall i :: 0 <= i < |ts| ==> SameText(buf, s, ts[i].entry)
  }

  predicate SameText(buf: seq<Byte>, s: seq<Byte>, e: Entry) {
    && End(e) <= |buf| == |s| && Text(s, e) == Text(buf, e) && s[End(e) - 1] == SOH
    && s[e.off..e.off + e.valOff] == buf[e.off..e.off + e.valOff]
  }

  /** Putting SOH back changes no value, and every field then ends in it. */
  lemma {:induction false} RewiredKeeps(buf: seq<Byte>, delimiter: Byte, ts: seq<Token>, from: nat)
    requires Tiled(buf, delimiter, ts, from)
    ensures forall i :: 0 <= i < |ts| ==> End(ts[i].entry) <= |buf|
    ensures from <= |buf| && Rewired(buf, ts)[..from] == buf[..from]
    ensures SameTexts(buf, Rewired(buf, ts), ts)
    decreases |ts|
  {
    TiledWithin(buf, delimiter, ts, from);
    if ts != [] {
      TiledFirst(buf, delimiter, ts, from);
      var e := ts[0].entry;
      hide Tiled, Spells, SameText, SameTexts;
      var buf' := buf[End(e) - 1 := SOH];
      assert buf'[End(e)..] == buf[End(e)..];
      TiledElsewhere(buf, buf', delimiter, ts[1..], End(e));
      RewiredKeeps(buf', delimiter, ts[1..], End(e));
      var s := Rewired(buf', ts[1..]);
      RewiredFirst(buf, buf', e, s, from);
      TextsElsewhere(buf, buf', s, ts, End(e));
    }
  }

  lemma {:induction false} TextsElsewhere(buf: seq<Byte>, buf': seq<Byte>, s: seq<Byte>, ts: seq<Token>, from: nat)
    requires ts != [] && from <= |buf| == |buf'| && buf'[from..] == buf[from..]
    requires forall i :: 1 <= i < |ts| ==> from <= ts[i].entry.off
    requires SameTexts(buf', s, ts[1..]) && SameText(buf, s, ts[0].entry)
    ensures SameTexts(buf, s, ts)
  {
    hide SameText;
    forall i | 0 <= i < |ts|
      ensures SameText(buf, s, ts[i].entry)
    {
      if i > 0 {
        assert SameText(buf', s, ts[1..][i - 1].entry);
        TextElsewhere(buf, buf', s, ts[i].entry, from);
      }
    }
  }

  lemma {:induction false} TiledFirst(buf: seq<Byte>, delimiter: Byte, ts: seq<Token>, from: nat)
    requires Tiled(buf, delimiter, ts, from) && ts != []
    ensures ts[0].entry.off == from && End(ts[0].entry) <= |buf| && Tiled(buf, delimiter, ts[1..], End(ts[0].entry))
    ensures forall i :: 1 <= i < |ts| ==> End(ts[0].entry) <= ts[i].entry.off
  {
    TiledWithin(buf, delimiter, ts[1..], End(ts[0].entry));
    assert forall i :: 1 <= i < |ts| ==> ts[i] == ts[1..][i - 1];
  }

  lemma {:induction false} TextElsewhere(buf: seq<Byte>, buf': seq<Byte>, s: seq<Byte>, e: Entry, from: nat)
    requires from <= e.off && from <= |buf| == |buf'| && buf'[from..] == buf[from..] && SameText(buf', s, e)
    ensures SameText(buf, s, e)
  {
    var i, j := e.off + e.valOff, End(e) - 1;
    assert buf'[i..j] == buf'[from..][i - from..j - from] && buf[i..j] == buf[from..][i - from..j - from];
    assert buf'[e.off..i] == buf'[from..][e.off - from..i - from] && buf[e.off..i] == buf[from..][e.off - from..i - from];
  }

  lemma {:induction false} RewiredFirst(buf: seq<Byte>, buf': seq<Byte>, e: Entry, s: seq<Byte>, from: nat)
    requires from <= e.off && End(e) <= |buf| && buf' == buf[End(e) - 1 := SOH]
    requires |s| == |buf| && s[..End(e)] == buf'[..End(e)]
    ensures s[..from] == buf[..from] && SameText(buf, s, e)
  {
    forall i | 0 <= i < End(e)
      ensures s[i] == buf'[i]
    {
      assert s[..End(e)][i] == buf'[..End(e)][i];
    }
  }

  // ---------------------------------------------------------------------
  // The same fields, walked over
  // ---------------------------------------------------------------------

  /** A field that is compared has its bytes somewhere. */
  predicate Spelt(e: Entry) {
    e.IsField() ==> e.valOff > 0 || e.tag == 9 || e.tag == 10
  }

  predicate AllSpelt(tape: seq<Entry>) {
    forall k :: 0 <= k < |tape| ==> Spelt(tape[k])
  }

  lemma {:induction false} SameWalk(segs: Segments, segs': Segments, tape: seq<Entry>, tape': seq<Entry>, i: nat)
    requires SameTape(segs, segs', tape, tape') && AllSpelt(tape)
    ensures Walk(segs, tape, i) == Walk(segs', tape', i)
    decreases |tape| - i
  {
    if i < |tape| {
      assert SameEntry(segs, segs', tape[i], tape'[i]) && Spelt(tape[i]);
      if tape[i].kind.Gap? {
        SameWalk(segs, segs', tape, tape', i + tape[i].Span());
      } else {
        SameWalk(segs, segs', tape, tape', i + 1);
      }
    }
  }

  /** Fields that are written from their own bytes have bytes. */
  predicate TokensSpelt(ts: seq<Token>) {
    forall i :: 0 <= i < |ts| && ts[i].number.None? ==> Spelt(ts[i].entry)
  }

  lemma {:induction false} SpeltAppend(a: seq<Token>, b: seq<Token>)
    requires TokensSpelt(a + b)
    ensures TokensSpelt(a) && TokensSpelt(b)
  {
    assert forall i :: 0 <= i < |a| ==> a[i] == (a + b)[i];
    assert forall i :: 0 <= i < |b| ==> b[i] == (a + b)[|a| + i];
  }

  lemma {:induction false} FlatSpelt(dict: Dict, ns: seq<Node>, ctx: Context, depth: nat)
    requires Fit(dict, ns, ctx) && TokensSpelt(Tokens(ns))
    ensures AllSpelt(Flat(ns, depth))
    decreases ns, 0
  {
    if ns != [] {
      hide NodeTokens, FlatNode, Clear, NodeFit;
      SpeltAppend(NodeTokens(ns[0]), Tokens(ns[1..]));
      NodeSpelt(dict, ns[0], ctx, depth);
      FlatSpelt(dict, ns[1..], ctx, depth);
    }
  }

  lemma {:induction false} NodeSpelt(dict: Dict, n: Node, ctx: Context, depth: nat)
    requires NodeFit(dict, n, ctx) && TokensSpelt(NodeTokens(n))
    ensures AllSpelt(FlatNode(n, depth))
    decreases n, 1
  {
    if n.entry.kind.Group? {
      SpeltAppend([Written(n)], InstanceTokens(n.kids));
      InstancesSpelt(dict, n.kids, Opened(dict, ctx, n.entry.tag).value, depth + 1);
    } else {
      assert NodeTokens(n)[0] == Written(n);
      assert FlatNode(n, depth) == [Head(n, depth)];
    }
  }

  lemma {:induction false} InstancesSpelt(dict: Dict, ns: seq<Node>, g: nat, depth: nat)
    requires InstancesFit(dict, ns, g) && TokensSpelt(InstanceTokens(ns))
    ensures AllSpelt(Flat(ns, depth))
    decreases ns, 2
  {
    if ns != [] {
      hide Fit, Members, ClearBehind;
      SpeltAppend(Tokens(ns[0].kids), InstanceTokens(ns[1..]));
      FlatSpelt(dict, ns[0].kids, Within(g), depth);
      InstancesSpelt(dict, ns[1..], g, depth);
    }
  }

  // ---------------------------------------------------------------------
  // The round trip
  // ---------------------------------------------------------------------

  /** BodyLength and CheckSum, which are worked out anew. */
  const NINE := Node(Entry(9, Field, 0, Wire, 0, 0, 0), [])
  const TEN := Node(Entry(10, Field, 0, Wire, 0, 0, 0), [])

  lemma {:induction false} SameRewired(segs: Segments, buf: seq<Byte>, wire: seq<Byte>, ws: seq<Token>, xs: seq<Token>)
    requires SameTokens(segs, Segments(buf, []), ws, xs) && SameTexts(buf, wire, xs)
    requires forall i :: 0 <= i < |xs| ==> xs[i].entry.seg.Wire?
    ensures SameTokens(segs, Segments(wire, []), ws, xs)
  {
    forall i | 0 <= i < |ws|
      ensures SameToken(segs, Segments(wire, []), ws[i], xs[i])
    {
      assert SameToken(segs, Segments(buf, []), ws[i], xs[i]) && SameText(buf, wire, xs[i].entry);
      assert xs[i].entry.(seg := Wire) == xs[i].entry;
    }
  }

  lemma {:induction false} FoundParts(d: Dictionary, segs: Segments, ws: seq<Token>)
    requires AllStored(segs, ws)
    ensures var ts, xs := FieldsFound(d, segs, ws), Labels(segs, ws, BodyAt(d, segs, ws));
            && |xs| == |ws| && |ts| == |xs| + 3 && ts == [ts[0], ts[1]] + xs + [ts[|ts| - 1]]
            && ts[0].entry.tag == 8 && ts[1].entry.tag == 9 && ts[|ts| - 1].entry.tag == 10
            && forall i :: 0 <= i < |ts| && !(2 <= i < |ts| - 1) ==> ts[i].entry.kind.Field? && ts[i].entry.depth == 0
  {
    hide Labels, Digits, NumberOf, BodyBytes, Output.Prefix, ThreeDigits, Sum, Front;
  }

  /** The fields that were written, found again with SOH put back. */
  lemma {:induction false} FoundOnWire(d: Dictionary, segs: Segments, ws: seq<Token>, delimiter: Byte, wire: seq<Byte>)
    requires Writable(d, segs, ws, delimiter)
    requires var buf, ts := Encoded(segs, ws, d.beginString, delimiter), FieldsFound(d, segs, ws);
             && (forall i :: 0 <= i < |ts| ==> End(ts[i].entry) <= |buf|)
             && wire == Rewired(buf, ts)
    ensures SameTokens(segs, Segments(wire, []), ws, Labels(segs, ws, BodyAt(d, segs, ws)))
    ensures |FieldsFound(d, segs, ws)| > 0 && Present(Segments(wire, []), FieldsFound(d, segs, ws)[0].entry)
    ensures Value(Segments(wire, []), FieldsFound(d, segs, ws)[0].entry) == d.beginString
  {
    WritableStored(d, segs, ws, delimiter);
    hide *;
    var buf, ts, xs := Encoded(segs, ws, d.beginString, delimiter), FieldsFound(d, segs, ws), Labels(segs, ws, BodyAt(d, segs, ws));
    FoundThere(d, segs, ws, delimiter);
    FoundParts(d, segs, ws);
    RewiredKeeps(buf, delimiter, ts, 0);
    TiledWithin(buf, delimiter, ts, 0);
    MiddleTexts(buf, wire, ts, xs);
    SameRewired(segs, buf, wire, ws, xs);
    FirstText(buf, wire, ts);
  }

  lemma {:induction false} WritableStored(d: Dictionary, segs: Segments, ws: seq<Token>, delimiter: Byte)
    requires Writable(d, segs, ws, delimiter)
    ensures AllStored(segs, ws)
  {
  }

  lemma {:induction false} MiddleTexts(buf: seq<Byte>, wire: seq<Byte>, ts: seq<Token>, xs: seq<Token>)
    requires |ts| == |xs| + 3 && ts == [ts[0], ts[1]] + xs + [ts[|ts| - 1]] && SameTexts(buf, wire, ts)
    requires forall i :: 0 <= i < |ts| ==> ts[i].entry.seg.Wire?
    ensures SameTexts(buf, wire, xs) && forall i :: 0 <= i < |xs| ==> xs[i].entry.seg.Wire?
  {
    hide SameText;
    assert forall i :: 0 <= i < |xs| ==> xs[i] == ts[i + 2];
  }

  lemma {:induction false} FirstText(buf: seq<Byte>, wire: seq<Byte>, ts: seq<Token>)
    requires ts != [] && SameTexts(buf, wire, ts) && ts[0].entry.seg.Wire?
    ensures var e := ts[0].entry;
            End(e) <= |buf| && Present(Segments(wire, []), e) && Value(Segments(wire, []), e) == Text(buf, e)
  {
    assert SameText(buf, wire, ts[0].entry) && ts[0].entry.(seg := Wire) == ts[0].entry;
  }

  /** A message's own BeginString is the dictionary's. */
  predicate Begins(d: Dictionary, segs: Segments, n8: Node) {
    IsFieldNode(n8, 8) && n8.entry.valOff > 0 && Present(segs, n8.entry) && Value(segs, n8.entry) == d.beginString
  }

  lemma {:induction false} SameOnWire(d: Dictionary, segs: Segments, doc: Doc, n8: Node, delimiter: Byte,
                                      wire: seq<Byte>)
    requires Writable(d, segs, Visited(doc), delimiter) && Begins(d, segs, n8)
    requires var buf, ts := Encoded(segs, Visited(doc), d.beginString, delimiter), FieldsFound(d, segs, Visited(doc));
             && (forall i :: 0 <= i < |ts| ==> End(ts[i].entry) <= |buf|)
             && wire == Rewired(buf, ts)
    ensures SameTokens(segs, Segments(wire, []), OnWire(doc, n8, NINE, TEN), FieldsFound(d, segs, Visited(doc)))
  {
    var ws := Visited(doc);
    WritableStored(d, segs, ws, delimiter);
    FoundOnWire(d, segs, ws, delimiter, wire);
    FoundParts(d, segs, ws);
    hide Visited, Writable, Encoded, Rewired, FieldsFound, Labels, BodyAt, Present;
    var ts, xs := FieldsFound(d, segs, ws), Labels(segs, ws, BodyAt(d, segs, ws));
    var segs' := Segments(wire, []);
    var a, z := [FieldToken(n8.entry), FieldToken(NINE.entry)], [FieldToken(TEN.entry)];
    FrameSame(d, segs, segs', n8, ts);
    SameJoined(segs, segs', a, ws, [ts[0], ts[1]], xs);
    SameJoined(segs, segs', a + ws, z, [ts[0], ts[1]] + xs, [ts[|ts| - 1]]);
  }

  lemma {:induction false} FrameSame(d: Dictionary, segs: Segments, segs': Segments, n8: Node, ts: seq<Token>)
    requires Begins(d, segs, n8) && |ts| >= 3
    requires ts[0].entry.tag == 8 && ts[1].entry.tag == 9 && ts[|ts| - 1].entry.tag == 10
    requires forall i :: 0 <= i < |ts| && !(2 <= i < |ts| - 1) ==> ts[i].entry.kind.Field? && ts[i].entry.depth == 0
    requires Present(segs', ts[0].entry) && Value(segs', ts[0].entry) == d.beginString
    ensures SameTokens(segs, segs', [FieldToken(n8.entry), FieldToken(NINE.entry)], [ts[0], ts[1]])
    ensures SameTokens(segs, segs', [FieldToken(TEN.entry)], [ts[|ts| - 1]])
  {
  }

  lemma {:induction false} SameJoined(segs: Segments, segs': Segments, a: seq<Token>, b: seq<Token>, x: seq<Token>,
                                      y: seq<Token>)
    requires SameTokens(segs, segs', a, x) && SameTokens(segs, segs', b, y)
    ensures SameTokens(segs, segs', a + b, x + y)
  {
    hide SameToken;
  }

  lemma {:induction false} OnWireSpelt(d: Dictionary, segs: Segments, doc: Doc, n8: Node, delimiter: Byte)
    requires Writable(d, segs, Visited(doc), delimiter) && Begins(d, segs, n8)
    ensures TokensSpelt(OnWire(doc, n8, NINE, TEN))
  {
    hide Visited, Digits, Labels, Chained, BodyBytes, AllAlphanumeric;
    var ws, os := Visited(doc), OnWire(doc, n8, NINE, TEN);
    forall i | 0 <= i < |os| && os[i].number.None?
      ensures Spelt(os[i].entry)
    {
      if 2 <= i < |ws| + 2 {
        assert os[i] == ws[i - 2] && Clean(segs, ws[i - 2], delimiter);
      }
    }
  }

  /** The tape that is read back has bytes for every field that is compared. */
  lemma {:induction false} ReadBackSpelt(dict: Dict, h: seq<Node>, b: seq<Node>, t: seq<Node>)
    requires Conforms(dict, h, b, t) && TokensSpelt(Tokens(h) + Tokens(b) + Tokens(t))
    ensures AllSpelt(ImageOf(Doc(h + [GapNode(HEADER_GAP)], b, t)).tape)
  {
    hide Tokens, Fit, ClearBehind, AllStay;
    SpeltAppend(Tokens(h) + Tokens(b), Tokens(t));
    SpeltAppend(Tokens(h), Tokens(b));
    FlatSpelt(dict, h, Top(true), 0);
    FlatSpelt(dict, b, Top(false), 0);
    FlatSpelt(dict, t, Top(false), 0);
    FlatAppend(h, [GapNode(HEADER_GAP)], 0);
    FlatOne(GapNode(HEADER_GAP), 0);
  }

  /**
   * The round trip, byte for byte: a well-formed message that conforms to the dictionary and has no
   * empty instance, encoded under a delimiter that none of its plain fields contains, is accepted by
   * the parser, and what is parsed is equal to it, by the comparison messages themselves are under.
   */
  lemma {:induction false} BytesRoundTrip(d: Dictionary, segs: Segments, doc: Doc, n8: Node, nine: seq<Node>, n35: Node,
                                          rest: seq<Node>, delimiter: Byte)
    returns (m: Machine)
    requires Sane(d) && WellFormed(doc) && StartsAsWritten(doc, n8, nine, n35, rest) && Begins(d, segs, n8)
    requires NoneEmpty(rest) && NoneEmpty(doc.body) && NoneEmpty(doc.trailer)
    requires Writable(d, segs, Visited(doc), delimiter)
    requires Conforms(Tables(d, Some(Said(segs, Visited(doc)[0]))), [n8, NINE, n35] + Stripped(doc.header, 0),
                      Stripped(doc.body, 0), Stripped(doc.trailer, 0) + [TEN])
    ensures ParsedBytes(d, Encoded(segs, Visited(doc), d.beginString, delimiter), delimiter) == Ok(m)
    ensures var buf := Encoded(segs, Visited(doc), d.beginString, delimiter);
            var ts := FieldsFrom(d, buf, delimiter, START);
            && (forall i :: 0 <= i < |ts| ==> End(ts[i].entry) <= |buf|)
            && SameMessage(segs, ImageOf(doc).tape, Segments(Rewired(buf, ts), []), m.tape)
  {
    var ws := Visited(doc);
    var dict := Tables(d, Some(Said(segs, ws[0])));
    MsgTypeFound(doc, n8, nine, n35, rest);
    OnWireSpelt(d, segs, doc, n8, delimiter);
    hide *;
    var buf, ts := Encoded(segs, ws, d.beginString, delimiter), FieldsFound(d, segs, ws);
    EncodedIsMessage(d, segs, ws, delimiter);
    MessageTiled(d, buf, delimiter, ts);
    ReadOneWay(d, buf, delimiter, ts);
    RewiredKeeps(buf, delimiter, ts, 0);
    var wire, os := Rewired(buf, ts), OnWire(doc, n8, NINE, TEN);
    Derived();
    var m0 := RoundTrips(segs, dict, doc, n8, nine, n35, rest, NINE, TEN);
    SameOnWire(d, segs, doc, n8, delimiter, wire);
    ParsedSame(segs, Segments(wire, []), dict, os, ts);
    SameBoth(segs, Segments(wire, []), Parsed(dict, os), Parsed(dict, ts));
    MessageIsAccepted(d, buf, delimiter, ts);
    m := Parsed(dict, ts).value;
    WireIsTokens(doc, n8, NINE, n35, TEN);
    TapeSpelt(dict, doc, n8, n35, m0, os);
    SameWalk(segs, Segments(wire, []), m0.tape, m.tape, 0);
    SameThrough(segs, ImageOf(doc).tape, m0.tape, Segments(wire, []), m.tape);
  }

  lemma {:induction false} Derived()
    ensures IsFieldNode(NINE, 9) && IsFieldNode(TEN, 10)
  {
  }

  lemma {:induction false} MessageTiled(d: Dictionary, buf: seq<Byte>, delimiter: Byte, ts: seq<Token>)
    requires IsMessage(d, buf, delimiter, ts)
    ensures Tiled(buf, delimiter, ts, 0)
  {
  }

  lemma {:induction false} SameBoth(segs: Segments, segs': Segments, r: Result<Machine>, r': Result<Machine>)
    requires r.Ok? && SameResult(segs, segs', r, r')
    ensures r'.Ok? && SameTape(segs, segs', r.value.tape, r'.value.tape)
  {
  }

  lemma {:induction false} TapeSpelt(dict: Dict, doc: Doc, n8: Node, n35: Node, m: Machine, os: seq<Token>)
    requires Conforms(dict, [n8, NINE, n35] + Stripped(doc.header, 0), Stripped(doc.body, 0), Stripped(doc.trailer, 0) + [TEN])
    requires TokensSpelt(os)
    requires os == Tokens([n8, NINE, n35] + Stripped(doc.header, 0)) + Tokens(Stripped(doc.body, 0))
                   + Tokens(Stripped(doc.trailer, 0) + [TEN])
    requires Image(m.tape, m.bodyStart, m.trailerStart) == ImageOf(ReadBackAs(doc, n8, NINE, n35, TEN))
    ensures AllSpelt(m.tape)
  {
    hide Conforms, Tokens, Stripped, ImageOf, TokensSpelt;
    ReadBackSpelt(dict, [n8, NINE, n35] + Stripped(doc.header, 0), Stripped(doc.body, 0), Stripped(doc.trailer, 0) + [TEN]);
  }

  lemma {:induction false} SameThrough(segs: Segments, tape: seq<Entry>, middle: seq<Entry>, segs': Segments,
                                       tape': seq<Entry>)
    requires SameMessage(segs, tape, segs, middle) && Walk(segs, middle, 0) == Walk(segs', tape', 0)
    ensures SameMessage(segs, tape, segs', tape')
  {
  }
}
