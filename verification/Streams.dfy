/**
 * Encoder and decoder joined by a stream (codec.rs): messages that are encoded one after the other
 * come out of a decoder at the other end, equal to what went in, however the bytes are cut up.
 */
module Streams {
  import opened Tape
  import opened Document
  import opened Numerals
  import opened Storage
  import opened Output
  import opened Shape
  import opened Parsing
  import opened RoundTrip
  import opened Encoding
  import opened Equality
  import opened Lexing
  import opened Legible
  import opened WireTrip
  import opened MessageTrip
  import F = Framing

  // ---------------------------------------------------------------------
  // A frame is what was encoded
  // ---------------------------------------------------------------------

  lemma {:induction false} LengthReads(n: nat)
    requires n <= MAX_UINT
    ensures F.Length(Digits(n)) == Some(n)
  {
    ReadBack(n);
    DigitsAreDigits(n);
    assert IsDigit(Digits(n)[0]);
  }

  /** The prefix of a message: two fields, and the frame they tell of. */
  lemma {:induction false} PrefixFrames(data: seq<Byte>, bs: seq<Byte>, n: nat, delimiter: Byte, max: nat)
    requires !IsDigit(delimiter) && delimiter != EQUALS && delimiter !in bs && n <= MAX_UINT
    requires var a := Output.Prefix(bs, n, delimiter); |a| <= |data| && data[..|a|] == a && |a| + n + 7 <= max
    ensures F.FrameOf(data, delimiter, max) == F.Extent(2 + |bs|, |Output.Prefix(bs, n, delimiter)| + n + 7)
    ensures |data| > 2 + |bs| && data[2..2 + |bs|] == bs
  {
    DigitsAreDigits(n);
    LengthReads(n);
    hide Digits, F.Length, Find, F.StartsWith;
    var a, b := [56, EQUALS] + bs + [delimiter], [57, EQUALS] + Digits(n) + [delimiter];
    PartsJoined(data, 0, a, b);
    FieldEnds(data, 0, 56, bs, delimiter);
    FieldEnds(data, |a|, 57, Digits(n), delimiter);
    assert data[..|a| - 1] == data[0..|a| - 1];
  }

  /** Where a field with a tag of one digit ends. */
  lemma {:induction false} FieldEnds(data: seq<Byte>, at: nat, digit: Byte, value: seq<Byte>, delimiter: Byte)
    requires delimiter != digit && delimiter != EQUALS && delimiter !in value
    requires var s := [digit, EQUALS] + value + [delimiter]; at + |s| <= |data| && data[at..at + |s|] == s
    ensures var end := at + 2 + |value|;
            && Find(data, at, delimiter) == end && end < |data|
            && F.StartsWith(data[at..end], digit) && data[at + 2..end] == value
  {
    var end := at + 2 + |value|;
    PartsAt(data, at, [digit], value, delimiter);
    assert data[at..end] == data[at..at + 2] + data[at + 2..end];
    FindIs(data, at, end, delimiter);
  }

  /** What was encoded is the first frame of any bytes it comes first in. */
  lemma {:induction false} EncodedFrames(d: Dictionary, segs: Segments, ws: seq<Token>, delimiter: Byte,
                                         tail: seq<Byte>, max: nat)
    requires Writable(d, segs, ws, delimiter) && delimiter != EQUALS
    requires |Encoded(segs, ws, d.beginString, delimiter)| <= max
    ensures var e := Encoded(segs, ws, d.beginString, delimiter);
            && F.FrameOf(e + tail, delimiter, max) == F.Extent(2 + |d.beginString|, |e|)
            && |e| >= 2 + |d.beginString| && e[2..2 + |d.beginString|] == d.beginString
  {
    WritableHas(d, segs, ws, delimiter);
    hide *;
    var n := |BodyBytes(segs, ws, SOH)|;
    var e, a := Encoded(segs, ws, d.beginString, delimiter), Output.Prefix(d.beginString, n, delimiter);
    EncodedStarts(segs, ws, d.beginString, delimiter, tail);
    PrefixFrames(e + tail, d.beginString, n, delimiter, max);
    PrefixFrames(e, d.beginString, n, delimiter, max);
  }

  lemma {:induction false} EncodedStarts(segs: Segments, ws: seq<Token>, bs: seq<Byte>, delimiter: Byte,
                                         tail: seq<Byte>)
    requires AllStored(segs, ws)
    ensures var n, e := |BodyBytes(segs, ws, SOH)|, Encoded(segs, ws, bs, delimiter);
            var a := Output.Prefix(bs, n, delimiter);
            |e| == |a| + n + 7 && e[..|a|] == a && (e + tail)[..|a|] == a
  {
    hide BodyBytes, Output.Prefix, Encoded;
    BodyLengthIsRight(segs, ws, bs, delimiter);
    var e, a := Encoded(segs, ws, bs, delimiter), Output.Prefix(bs, |BodyBytes(segs, ws, SOH)|, delimiter);
    assert (e + tail)[..|a|] == e[..|a|];
  }

  lemma {:induction false} WritableHas(d: Dictionary, segs: Segments, ws: seq<Token>, delimiter: Byte)
    requires Writable(d, segs, ws, delimiter)
    ensures AllStored(segs, ws) && ws != [] && !IsDigit(delimiter) && delimiter !in d.beginString
    ensures |BodyBytes(segs, ws, SOH)| <= MAX_UINT
  {
  }

  // ---------------------------------------------------------------------
  // Messages that are sent
  // ---------------------------------------------------------------------

  /** A message to be encoded, and how its header starts. */
  datatype Sent = Sent(segs: Segments, doc: Doc, n8: Node, nine: seq<Node>, n35: Node, rest: seq<Node>)

  /** It can be read back, and is no longer than a frame may be. */
  predicate Sendable(d: Dictionary, x: Sent, delimiter: Byte, max: nat) {
    && WellFormed(x.doc) && StartsAsWritten(x.doc, x.n8, x.nine, x.n35, x.rest) && Begins(d, x.segs, x.n8)
    && NoneEmpty(x.rest) && NoneEmpty(x.doc.body) && NoneEmpty(x.doc.trailer)
    && Writable(d, x.segs, Visited(x.doc), delimiter) && delimiter != EQUALS
    && Conforms(Tables(d, Some(Said(x.segs, Visited(x.doc)[0]))), [x.n8, NINE, x.n35] + Stripped(x.doc.header, 0),
                Stripped(x.doc.body, 0), Stripped(x.doc.trailer, 0) + [TEN])
    && |Encoded(x.segs, Visited(x.doc), d.beginString, delimiter)| <= max
  }

  function Bytes(d: Dictionary, x: Sent, delimiter: Byte): seq<Byte> {
    if AllStored(x.segs, Visited(x.doc)) then Encoded(x.segs, Visited(x.doc), d.beginString, delimiter) else []
  }

  function AllBytes(d: Dictionary, xs: seq<Sent>, delimiter: Byte): seq<Byte> {
    if xs == [] then [] else Bytes(d, xs[0], delimiter) + AllBytes(d, xs[1..], delimiter)
  }

  /** What came out is what went in: its bytes, and a message equal to it. */
  predicate Received(d: Dictionary, x: Sent, m: F.Decoded, delimiter: Byte) {
    var ts := FieldsFrom(d, m.frame, delimiter, START);
    && m.frame == Bytes(d, x, delimiter)
    && ParsedBytes(d, m.frame, delimiter) == Ok(m.machine)
    && (forall i :: 0 <= i < |ts| ==> End(ts[i].entry) <= |m.frame|)
    && SameMessage(x.segs, ImageOf(x.doc).tape, Segments(Rewired(m.frame, ts), []), m.machine.tape)
  }

  /** The decoder has latched this version, or will. */
  ghost predicate Takes(c: F.Codec, s: F.Stream, d: Dictionary) {
    s.dict == Some(d) || (s.dict.None? && d.beginString in c.known && c.known[d.beginString] == d)
  }

  lemma {:induction false} OneReceived(c: F.Codec, s: F.Stream, d: Dictionary, x: Sent, tail: seq<Byte>)
    returns (m: F.Decoded)
    requires Sane(d) && Sendable(d, x, c.delimiter, c.max) && Takes(c, s, d)
    requires s.data == Bytes(d, x, c.delimiter) + tail
    ensures F.Decode(c, s) == (F.Stream(Some(d), tail), F.Got(m))
    ensures Received(d, x, m, c.delimiter)
  {
    SendableHas(d, x, c.delimiter, c.max);
    hide *;
    var ws := Visited(x.doc);
    WritableHas(d, x.segs, ws, c.delimiter);
    var e := Encoded(x.segs, ws, d.beginString, c.delimiter);
    BytesAre(d, x, c.delimiter);
    EncodedFrames(d, x.segs, ws, c.delimiter, tail, c.max);
    var machine := BytesRoundTrip(d, x.segs, x.doc, x.n8, x.nine, x.n35, x.rest, c.delimiter);
    m := F.Decoded(e, machine);
    DecodeIs(c, s, d, e, machine, tail);
    ReceivedIs(d, x, m, c.delimiter);
  }

  lemma {:induction false} SendableHas(d: Dictionary, x: Sent, delimiter: Byte, max: nat)
    requires Sendable(d, x, delimiter, max)
    ensures WellFormed(x.doc) && StartsAsWritten(x.doc, x.n8, x.nine, x.n35, x.rest) && Begins(d, x.segs, x.n8)
    ensures NoneEmpty(x.rest) && NoneEmpty(x.doc.body) && NoneEmpty(x.doc.trailer)
    ensures Writable(d, x.segs, Visited(x.doc), delimiter) && delimiter != EQUALS
    ensures Conforms(Tables(d, Some(Said(x.segs, Visited(x.doc)[0]))), [x.n8, NINE, x.n35] + Stripped(x.doc.header, 0),
                     Stripped(x.doc.body, 0), Stripped(x.doc.trailer, 0) + [TEN])
    ensures |Encoded(x.segs, Visited(x.doc), d.beginString, delimiter)| <= max
  {
    hide Writable, Conforms, Stripped, Visited, Encoded, WellFormed, StartsAsWritten, NoneEmpty, Begins;
  }

  lemma {:induction false} BytesAre(d: Dictionary, x: Sent, delimiter: Byte)
    requires AllStored(x.segs, Visited(x.doc))
    ensures Bytes(d, x, delimiter) == Encoded(x.segs, Visited(x.doc), d.beginString, delimiter)
  {
  }

  /** A whole frame that parses is given, and what is behind it is left. */
  lemma {:induction false} DecodeIs(c: F.Codec, s: F.Stream, d: Dictionary, e: seq<Byte>, machine: Machine,
                                    tail: seq<Byte>)
    requires s.data == e + tail && F.FrameOf(s.data, c.delimiter, c.max) == F.Extent(2 + |d.beginString|, |e|)
    requires |e| >= 2 + |d.beginString| && e[2..2 + |d.beginString|] == d.beginString
    requires Takes(c, s, d) && ParsedBytes(d, e, c.delimiter) == Ok(machine)
    ensures F.Decode(c, s) == (F.Stream(Some(d), tail), F.Got(F.Decoded(e, machine)))
  {
    hide ParsedBytes, F.FrameOf;
    assert s.data[..|e|] == e && s.data[|e|..] == tail;
    assert s.data[2..2 + |d.beginString|] == e[2..2 + |d.beginString|];
  }

  lemma {:induction false} ReceivedIs(d: Dictionary, x: Sent, m: F.Decoded, delimiter: Byte)
    requires m.frame == Bytes(d, x, delimiter) && ParsedBytes(d, m.frame, delimiter) == Ok(m.machine)
    requires var ts := FieldsFrom(d, m.frame, delimiter, START);
             && (forall i :: 0 <= i < |ts| ==> End(ts[i].entry) <= |m.frame|)
             && SameMessage(x.segs, ImageOf(x.doc).tape, Segments(Rewired(m.frame, ts), []), m.machine.tape)
    ensures Received(d, x, m, delimiter)
  {
    hide ParsedBytes, FieldsFrom, SameMessage, ImageOf, Rewired, Bytes;
  }

  lemma {:induction false} AllReceived(c: F.Codec, s: F.Stream, d: Dictionary, xs: seq<Sent>)
    requires Sane(d) && Takes(c, s, d) && s.data == AllBytes(d, xs, c.delimiter)
    requires forall i :: 0 <= i < |xs| ==> Sendable(d, xs[i], c.delimiter, c.max)
    ensures var r := F.Drain(c, s);
            && r.fault.None? && r.rest.data == [] && |r.out| == |xs|
            && forall i :: 0 <= i < |xs| ==> Received(d, xs[i], r.out[i], c.delimiter)
    decreases |xs|
  {
    hide Sendable, Received, F.Decode, Bytes;
    if xs == [] {
      NothingWaits(c, s);
    } else {
      var m := OneReceived(c, s, d, xs[0], AllBytes(d, xs[1..], c.delimiter));
      AllReceived(c, F.Stream(Some(d), AllBytes(d, xs[1..], c.delimiter)), d, xs[1..]);
    }
  }

  lemma {:induction false} NothingWaits(c: F.Codec, s: F.Stream)
    requires s.data == []
    ensures F.Decode(c, s) == (s, F.Waiting)
  {
  }

  /**
   * The codec, end to end: any messages that can be read back, encoded one after the other and cut
   * into any chunks, are given back one by one, each equal to what was sent, and nothing is left.
   */
  lemma {:induction false} SentIsReceived(c: F.Codec, d: Dictionary, xs: seq<Sent>, chunks: seq<seq<Byte>>)
    requires Sane(d) && d.beginString in c.known && c.known[d.beginString] == d
    requires forall i :: 0 <= i < |xs| ==> Sendable(d, xs[i], c.delimiter, c.max)
    requires F.Concat(chunks) == AllBytes(d, xs, c.delimiter)
    ensures var r := F.Fed(c, F.Stream(None, []), chunks);
            && r.fault.None? && r.rest.data == [] && |r.out| == |xs|
            && forall i :: 0 <= i < |xs| ==> Received(d, xs[i], r.out[i], c.delimiter)
  {
    hide Sendable, Received, F.Decode, F.Drain, F.Fed, AllBytes;
    var s, all := F.Stream(None, []), AllBytes(d, xs, c.delimiter);
    NothingWaits(c, s);
    F.ChunkingUnseen(c, s, chunks);
    assert s.data + all == all;
    AllReceived(c, s.(data := all), d, xs);
  }
}
