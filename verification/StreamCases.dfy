/**
 * Messages that the stream theorem is about: any new message, of any type, under any usable
 * delimiter, and any message that was accepted and has no group without instances.
 */
module StreamCases {
  import opened Tape
  import opened Document
  import opened Editing
  import opened Lookup
  import opened Messages
  import opened Numerals
  import opened Storage
  import opened Output
  import opened Shape
  import opened Pruning
  import opened Parsing
  import opened RoundTrip
  import opened Encoding
  import opened Equality
  import opened Lexing
  import opened Legible
  import opened WireTrip
  import opened MessageTrip
  import opened Streams
  import W = Forwarding

  /** A type, a version and a delimiter that messages can be told apart with. */
  predicate Tellable(d: Dictionary, msgType: seq<Byte>, delimiter: Byte) {
    && d.beginString != [] && delimiter !in d.beginString
    && msgType != [] && AllAlphanumeric(msgType) && delimiter !in msgType
    && !IsDigit(delimiter) && delimiter != EQUALS
    && 10 !in Tables(d, Some(msgType)).bodyGroups
  }

  /** A message as `new` makes it. */
  function New(d: Dictionary, msgType: seq<Byte>): Sent {
    var doc := Fresh(d.beginString, msgType);
    Sent(Segments([], Spelled(8, d.beginString) + Spelled(35, msgType)), doc, doc.header[0], [], doc.header[1], [])
  }

  lemma {:induction false} NewStored(d: Dictionary, msgType: seq<Byte>)
    ensures var x := New(d, msgType);
            && Present(x.segs, x.n8.entry) && Value(x.segs, x.n8.entry) == d.beginString
            && Present(x.segs, x.n35.entry) && Value(x.segs, x.n35.entry) == msgType
            && FieldText(x.segs, x.n35.entry) == Spelled(35, msgType)
  {
    hide Digits;
    var none, a := Segments([], []), Spelled(8, d.beginString);
    var mid, x := Segments([], a), New(d, msgType);
    SpelledReads(none, 8, Field, d.beginString);
    assert [] + a == a;
    SpelledReads(mid, 35, Field, msgType);
    assert x.segs == mid.(arena := mid.arena + Spelled(35, msgType));
    ExtendsKeeps(mid, x.segs, x.n8.entry);
  }

  /** All there is to write is MsgType. */
  lemma {:induction false} NewVisited(d: Dictionary, msgType: seq<Byte>)
    ensures var x := New(d, msgType);
            && WellFormed(x.doc) && StartsAsWritten(x.doc, x.n8, x.nine, x.n35, x.rest)
            && Visited(x.doc) == [Token(x.n35.entry, None)]
            && Stripped(x.doc.header, 0) == [] && x.doc.body == [] && x.doc.trailer == []
  {
    hide Digits, Spelled, Emit, Stripped, First, HasTag, NodeSize, WellFormed;
    var x := New(d, msgType);
    var gap := GapNode(HEADER_GAP);
    assert x.doc.header == [x.n8, x.n35, gap] && Fields(x.doc.header) == [x.n8, x.n35] == [x.n8] + [] + [x.n35] + [];
    NewWellFormed(x.n8, x.n35, x.doc);
    MsgTypeFound(x.doc, x.n8, x.nine, x.n35, x.rest);
    assert Forest(x.doc) == [x.n8, x.n35, gap];
    EmitThree(x.n8, x.n35, gap);
  }

  lemma {:induction false} NewWellFormed(a: Node, b: Node, doc: Doc)
    requires IsFieldNode(a, 8) && IsFieldNode(b, 35) && doc == Doc([a, b, GapNode(HEADER_GAP)], [], [])
    ensures WellFormed(doc)
  {
    assert Fields(doc.header) == [a, b];
    assert ShapedNode(a, false) && ShapedNode(b, false);
    assert NodeSize(GapNode(HEADER_GAP)) == HEADER_GAP;
  }

  lemma {:induction false} EmitThree(a: Node, b: Node, gap: Node)
    requires IsFieldNode(a, 8) && IsFieldNode(b, 35) && gap.entry.kind.Gap?
    ensures Emit([a, b, gap], 0) == [] && Stripped([a, b, gap], 0) == []
  {
    WritesNothing(gap, []);
    WritesNothing(b, [gap]);
    WritesNothing(a, [b, gap]);
    assert [gap] + [] == [gap] && [b] + [gap] == [b, gap] && [a] + [b, gap] == [a, b, gap];
  }

  lemma {:induction false} WritesNothing(n: Node, ns: seq<Node>)
    requires EmitNode(n, 0) == [] && StripNode(n, 0) == [] && Emit(ns, 0) == [] && Stripped(ns, 0) == []
    ensures Emit([n] + ns, 0) == [] && Stripped([n] + ns, 0) == []
  {
    hide EmitNode, StripNode;
    assert ([n] + ns)[1..] == ns;
  }

  lemma {:induction false} NewWritable(d: Dictionary, msgType: seq<Byte>, delimiter: Byte)
    requires Sane(d) && Tellable(d, msgType, delimiter)
    requires |Spelled(35, msgType)| <= MAX_UINT
    ensures Writable(d, New(d, msgType).segs, Visited(New(d, msgType).doc), delimiter)
    ensures Said(New(d, msgType).segs, Visited(New(d, msgType).doc)[0]) == msgType
  {
    var x := New(d, msgType);
    var w := Token(x.n35.entry, None);
    NewStored(d, msgType);
    NewVisited(d, msgType);
    NewClean(d, msgType, delimiter);
    assert FIRST[2] !in d.dataOf && Tellable(d, msgType, delimiter);
    hide *;
    OneLabel(d, x.segs, w);
    OneWritable(d, x.segs, w, delimiter);
  }

  lemma {:induction false} OneWritable(d: Dictionary, segs: Segments, w: Token, delimiter: Byte)
    requires Clean(segs, w, delimiter) && AllStored(segs, [w]) && Chained(d, None, Labels(segs, [w], 0))
    requires !IsDigit(delimiter) && d.beginString != [] && delimiter !in d.beginString
    requires w.entry.tag == 35 && AllAlphanumeric(Said(segs, w)) && |BodyBytes(segs, [w], SOH)| <= MAX_UINT
    ensures Writable(d, segs, [w], delimiter)
  {
    hide Clean, Chained, Labels, BodyBytes, Said;
  }

  lemma {:induction false} NewClean(d: Dictionary, msgType: seq<Byte>, delimiter: Byte)
    requires Sane(d) && Tellable(d, msgType, delimiter) && |Spelled(35, msgType)| <= MAX_UINT
    ensures var x := New(d, msgType);
            var w := Token(x.n35.entry, None);
            && Clean(x.segs, w, delimiter) && Stored(x.segs, w) && Said(x.segs, w) == msgType && x.n35.entry.tag == 35
            && |BodyBytes(x.segs, [w], SOH)| <= MAX_UINT
  {
    var x := New(d, msgType);
    hide Clean, Said, BodyBytes, Digits, Spelled, Sane, Tables;
    NewStored(d, msgType);
    SpeltClean(x.segs, x.n35.entry, msgType, delimiter);
  }

  lemma {:induction false} SpeltParts(arena: seq<Byte>, at: nat, tag: seq<Byte>, value: seq<Byte>)
    requires var s := tag + [EQUALS] + value + [SOH]; at + |s| <= |arena| && arena[at..at + |s|] == s
    ensures arena[at..at + |tag| + 1] == tag + [EQUALS] && arena[at + |tag| + 1 + |value|] == SOH
  {
    var s, k := tag + [EQUALS] + value + [SOH], |tag| + 1;
    assert s[..k] == tag + [EQUALS] && s[k + |value|] == SOH;
    assert arena[at..at + k] == arena[at..at + |s|][..k];
    assert arena[at..at + |s|][k + |value|] == arena[at + k + |value|];
  }

  /** A field spelt out is clean, if its value has no delimiter in it. */
  lemma {:induction false} SpeltClean(segs: Segments, e: Entry, value: seq<Byte>, delimiter: Byte)
    requires Present(segs, e) && Value(segs, e) == value && FieldText(segs, e) == Spelled(e.tag, value)
    requires 0 < e.tag <= MAX_TAG && e.kind.Field? && e.depth == 0 && e.valOff == |Digits(e.tag)| + 1
    requires value != [] && delimiter !in value && |Spelled(e.tag, value)| <= MAX_UINT
    ensures var w := Token(e, None);
            && Clean(segs, w, delimiter) && Stored(segs, w) && Said(segs, w) == value
            && |BodyBytes(segs, [w], SOH)| <= MAX_UINT
  {
    hide Digits;
    var w, s, arena := Token(e, None), Spelled(e.tag, value), segs.Of(e.seg);
    SpeltParts(arena, e.off, Digits(e.tag), value);
    assert [w][..0] == [];
    assert BodyBytes(segs, [w], SOH) == [] + TokenBytes(segs, w, SOH);
  }

  lemma {:induction false} OneLabel(d: Dictionary, segs: Segments, w: Token)
    requires Stored(segs, w) && w.entry.kind.Field? && w.entry.tag !in d.dataOf
    ensures AllStored(segs, [w]) && Chained(d, None, Labels(segs, [w], 0))
  {
    hide Digits, NumberOf, TokenBytes;
    assert [w][1..] == [];
    assert Labels(segs, [w], 0) == [Label(segs, w, 0)] + [];
    assert ([Label(segs, w, 0)] + [])[1..] == [];
  }

  lemma {:induction false} NewConforms(d: Dictionary, msgType: seq<Byte>, delimiter: Byte)
    requires Sane(d) && Tellable(d, msgType, delimiter)
    ensures var x := New(d, msgType); Conforms(Tables(d, Some(msgType)), [x.n8, NINE, x.n35], [], [TEN])
  {
    hide Digits, Spelled, Fit, Tables;
    var x, dict := New(d, msgType), Tables(d, Some(msgType));
    var h := [x.n8, NINE, x.n35];
    assert FIRST[0] in d.headerTags && FIRST[1] in d.headerTags && FIRST[2] in d.headerTags;
    assert FIRST[0] !in d.headerGroups && FIRST[1] !in d.headerGroups && FIRST[2] !in d.headerGroups;
    assert [x.n35] + [] == [x.n35] && [NINE] + [x.n35] == [NINE, x.n35] && [x.n8] + [NINE, x.n35] == h && [TEN] + [] == [TEN];
    TablesAre(d, Some(msgType));
    FitMore(dict, x.n35, [], Top(true));
    FitMore(dict, NINE, [x.n35], Top(true));
    FitMore(dict, x.n8, [NINE, x.n35], Top(true));
    FitMore(dict, TEN, [], Top(false));
    assert AllStay(dict, Header, h) && AllStay(dict, Trailer, [TEN]);
    assert ClearBehind(dict, [], Top(false), 10) && ClearBehind(dict, h, Top(true), 10);
  }

  lemma {:induction false} TablesAre(d: Dictionary, msgType: Option<seq<Byte>>)
    ensures var dict := Tables(d, msgType);
            dict.headerGroups == d.headerGroups && dict.headerTags == d.headerTags && dict.trailerTags == d.trailerTags
  {
  }

  lemma {:induction false} FitMore(dict: Dict, n: Node, ns: seq<Node>, ctx: Context)
    requires n.entry.kind.Field? && n.kids == [] && Opened(dict, ctx, n.entry.tag) == None
    requires ns == [] || Fit(dict, ns, ctx)
    ensures Fit(dict, [n] + ns, ctx) && Fit(dict, [], ctx)
  {
    assert ([n] + ns)[1..] == ns;
  }

  /** Every new message can be sent, if it is short enough. */
  lemma {:induction false} NewIsSendable(d: Dictionary, msgType: seq<Byte>, delimiter: Byte, max: nat)
    requires Sane(d) && Tellable(d, msgType, delimiter) && |Spelled(35, msgType)| <= MAX_UINT
    requires |Bytes(d, New(d, msgType), delimiter)| <= max
    ensures Sendable(d, New(d, msgType), delimiter, max)
  {
    hide *;
    var x := New(d, msgType);
    NotEquals(d, msgType, delimiter);
    NewVisited(d, msgType);
    NewWritable(d, msgType, delimiter);
    NewConforms(d, msgType, delimiter);
    NothingElse(d, msgType);
    assert [x.n8, NINE, x.n35] + [] == [x.n8, NINE, x.n35] && [] + [TEN] == [TEN];
    Together(d, x, delimiter, max);
  }

  lemma {:induction false} NotEquals(d: Dictionary, msgType: seq<Byte>, delimiter: Byte)
    requires Tellable(d, msgType, delimiter)
    ensures delimiter != EQUALS
  {
  }

  lemma {:induction false} Together(d: Dictionary, x: Sent, delimiter: Byte, max: nat)
    requires WellFormed(x.doc) && StartsAsWritten(x.doc, x.n8, x.nine, x.n35, x.rest) && Begins(d, x.segs, x.n8)
    requires NoneEmpty(x.rest) && NoneEmpty(x.doc.body) && NoneEmpty(x.doc.trailer)
    requires Writable(d, x.segs, Visited(x.doc), delimiter) && delimiter != EQUALS
    requires Conforms(Tables(d, Some(Said(x.segs, Visited(x.doc)[0]))), [x.n8, NINE, x.n35] + Stripped(x.doc.header, 0),
                      Stripped(x.doc.body, 0), Stripped(x.doc.trailer, 0) + [TEN])
    requires |Bytes(d, x, delimiter)| <= max
    ensures Sendable(d, x, delimiter, max)
  {
    WritableStored(d, x.segs, Visited(x.doc), delimiter);
    hide WellFormed, StartsAsWritten, Begins, NoneEmpty, Writable, Conforms, Tables, Said, Visited, Stripped, Encoded;
  }

  lemma {:induction false} NothingElse(d: Dictionary, msgType: seq<Byte>)
    ensures var x := New(d, msgType);
            && Begins(d, x.segs, x.n8) && NoneEmpty(x.rest) && NoneEmpty(x.doc.body) && NoneEmpty(x.doc.trailer)
            && Stripped(x.doc.body, 0) == [] && Stripped(x.doc.trailer, 0) == []
  {
    NewStored(d, msgType);
    hide Digits, Spelled;
  }

  /** Every message that was accepted, with no group without instances, can be sent on, if it is short enough. */
  lemma {:induction false} AcceptedIsSendable(d: Dictionary, buf: seq<Byte>, delimiter: Byte, m: Machine, max: nat)
    returns (x: Sent)
    requires Sane(d) && PairsTogether(Tables(d, None)) && W.CheckSumPlain(d) && !IsDigit(delimiter) && delimiter != EQUALS
    requires ParsedBytes(d, buf, delimiter) == Ok(m) && W.NoneHollow(m.tape)
    ensures W.Over(d, buf, delimiter, x.segs) && ImageOf(x.doc) == Image(m.tape, m.bodyStart, m.trailerStart)
    ensures |Bytes(d, x, delimiter)| <= max ==> Sendable(d, x, delimiter, max)
  {
    var segs, doc, p := W.AcceptedCanBeSent(d, buf, delimiter, m);
    assert W.CanBeSent(d, segs, doc, p, delimiter);
    hide WellFormed, StartsAsWritten, Begins, NoneEmpty, Stripped, Visited, Conforms, Tables, Said, Writable, Bytes;
    hide Sendable, ParsedBytes, Sane, PairsTogether, W.CheckSumPlain, W.NoneHollow, W.Over, ImageOf;
    x := Sent(segs, doc, p.n8, [p.n9], p.n35, p.rest);
    if |Bytes(d, x, delimiter)| <= max {
      Together(d, x, delimiter, max);
    }
  }
}
