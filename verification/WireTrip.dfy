/**
 * A message written to bytes and parsed from them (message/encode.rs, message/parse.rs): the bytes
 * are a message, their fields are those that were written, and what is parsed equals what was sent.
 */
module WireTrip {
  import opened Tape
  import opened Numerals
  import opened Storage
  import opened Output
  import opened Parsing
  import opened Lexing
  import opened Legible
  import opened Machines

  // ---------------------------------------------------------------------
  // One field
  // ---------------------------------------------------------------------

  /** What is written after a field's equals sign. */
  function Said(segs: Segments, w: Token): seq<Byte>
    requires Stored(segs, w)
  {
    if w.number.Some? then Digits(w.number.value) else Value(segs, w.entry)
  }

  /** A field that can be told apart where it is written: its tag is spelt out, and no delimiter cuts it short. */
  predicate Clean(segs: Segments, w: Token, delimiter: Byte) {
    var e := w.entry;
    && Stored(segs, w) && 0 < e.tag <= MAX_TAG && e.IsField() && e.depth == 0
    && if w.number.Some? then w == CountToken(e.tag, w.number.value) && w.number.value <= MAX_UINT
       else
         && e.valOff == |Digits(e.tag)| + 1 && e.len > 0
         && segs.Of(e.seg)[e.off..e.off + e.valOff] == Digits(e.tag) + [EQUALS]
         && (e.kind.Data? || delimiter !in Value(segs, e))
  }

  /** The same field where it is found again. */
  function Label(segs: Segments, w: Token, at: nat): Token
    requires Stored(segs, w)
  {
    Token(Entry(w.entry.tag, w.entry.kind, 0, Wire, |Digits(w.entry.tag)| + 1, at, |Said(segs, w)|), NumberOf(Said(segs, w)))
  }

  lemma {:induction false} TokenSpelt(segs: Segments, w: Token, delimiter: Byte)
    requires Clean(segs, w, delimiter)
    ensures TokenBytes(segs, w, delimiter) == Digits(w.entry.tag) + [EQUALS] + Said(segs, w) + [delimiter]
  {
    if w.number.None? {
      var e, s := w.entry, segs.Of(w.entry.seg);
      assert s[e.off..End(e) - 1] == s[e.off..e.off + e.valOff] + s[e.off + e.valOff..End(e) - 1];
    }
  }

  /** What is said of a clean field can be read up to its delimiter. */
  lemma {:induction false} SaidClean(segs: Segments, w: Token, delimiter: Byte)
    requires Clean(segs, w, delimiter) && !IsDigit(delimiter)
    ensures Said(segs, w) != []
    ensures w.number.Some? ==> NumberOf(Said(segs, w)) == w.number
    ensures w.entry.kind.Data? || delimiter !in Said(segs, w)
  {
    if w.number.Some? {
      ReadBack(w.number.value);
      DigitsAreDigits(w.number.value);
    }
  }

  /** A part of a sequence's part. */
  lemma {:induction false} Within(buf: seq<Byte>, at: nat, whole: seq<Byte>, i: nat, j: nat)
    requires at + |whole| <= |buf| && buf[at..at + |whole|] == whole && i <= j <= |whole|
    ensures buf[at + i..at + j] == whole[i..j]
  {
    forall k | i <= k < j
      ensures buf[at + k] == whole[k]
    {
      assert whole[k] == buf[at..at + |whole|][k];
    }
  }

  /** Where a tag, an equals sign, a value and a delimiter are. */
  lemma {:induction false} PartsAt(buf: seq<Byte>, at: nat, tag: seq<Byte>, value: seq<Byte>, delimiter: Byte)
    requires var whole := tag + [EQUALS] + value + [delimiter]; at + |whole| <= |buf| && buf[at..at + |whole|] == whole
    ensures var k := at + |tag| + 1;
            buf[at..k] == tag + [EQUALS] && buf[k..k + |value|] == value && buf[k + |value|] == delimiter
  {
    var whole, k := tag + [EQUALS] + value + [delimiter], |tag| + 1;
    Within(buf, at, whole, 0, k);
    Within(buf, at, whole, k, k + |value|);
    assert whole[0..k] == tag + [EQUALS] && whole[k..k + |value|] == value;
    assert buf[at..at + |whole|][k + |value|] == buf[at + k + |value|];
  }

  lemma {:induction false} LabelSpells(segs: Segments, w: Token, buf: seq<Byte>, at: nat, delimiter: Byte)
    requires Clean(segs, w, delimiter) && !IsDigit(delimiter)
    requires var s := TokenBytes(segs, w, delimiter); at + |s| <= |buf| && buf[at..at + |s|] == s
    ensures var t := Label(segs, w, at);
            && Spells(buf, delimiter, t) && End(t.entry) == at + |TokenBytes(segs, w, delimiter)|
            && Text(buf, t.entry) == Said(segs, w) && SameToken(segs, Segments(buf, []), w, t)
  {
    hide Digits, NumberOf, TokenBytes, Said, Spells, SameToken;
    TokenSpelt(segs, w, delimiter);
    SaidClean(segs, w, delimiter);
    PartsAt(buf, at, Digits(w.entry.tag), Said(segs, w), delimiter);
    LabelIsSpelt(segs, w, buf, at, delimiter);
    LabelIsSame(segs, w, buf, at, delimiter);
  }

  lemma {:induction false} LabelIsSpelt(segs: Segments, w: Token, buf: seq<Byte>, at: nat, delimiter: Byte)
    requires Stored(segs, w) && 0 < w.entry.tag <= MAX_TAG && w.entry.IsField() && Said(segs, w) != []
    requires w.entry.kind.Data? || delimiter !in Said(segs, w)
    requires var k := at + |Digits(w.entry.tag)| + 1;
             && k + |Said(segs, w)| < |buf| && buf[at..k] == Digits(w.entry.tag) + [EQUALS]
             && buf[k..k + |Said(segs, w)|] == Said(segs, w) && buf[k + |Said(segs, w)|] == delimiter
    ensures Spells(buf, delimiter, Label(segs, w, at)) && Text(buf, Label(segs, w, at).entry) == Said(segs, w)
  {
    hide Digits, NumberOf, Said;
  }

  lemma {:induction false} LabelIsSame(segs: Segments, w: Token, buf: seq<Byte>, at: nat, delimiter: Byte)
    requires Clean(segs, w, delimiter) && (w.number.Some? ==> NumberOf(Said(segs, w)) == w.number)
    requires End(Label(segs, w, at).entry) <= |buf| && Text(buf, Label(segs, w, at).entry) == Said(segs, w)
    ensures SameToken(segs, Segments(buf, []), w, Label(segs, w, at))
  {
    hide Digits, NumberOf;
  }

  // ---------------------------------------------------------------------
  // Fields one after the other
  // ---------------------------------------------------------------------

  predicate AllClean(segs: Segments, ws: seq<Token>, delimiter: Byte) {
    forall i :: 0 <= i < |ws| ==> Clean(segs, ws[i], delimiter)
  }

  /** The fields where they are found again, if the first is found at `at`. */
  function Labels(segs: Segments, ws: seq<Token>, at: nat): (ts: seq<Token>)
    requires AllStored(segs, ws)
    ensures |ts| == |ws|
    ensures forall i :: 0 <= i < |ts| ==> ts[i].entry.tag == ws[i].entry.tag
    decreases |ws|
  {
    if ws == [] then []
    else [Label(segs, ws[0], at)] + Labels(segs, ws[1..], at + |TokenBytes(segs, ws[0], SOH)|)
  }

  lemma {:induction false} BodyFirst(segs: Segments, ws: seq<Token>, delimiter: Byte)
    requires AllStored(segs, ws) && ws != []
    ensures BodyBytes(segs, ws, delimiter) == TokenBytes(segs, ws[0], delimiter) + BodyBytes(segs, ws[1..], delimiter)
    decreases |ws|
  {
    hide TokenBytes;
    var k := |ws| - 1;
    if k == 0 {
      assert ws[1..] == [] && ws[..0] == [];
    } else {
      BodyFirst(segs, ws[..k], delimiter);
      assert ws[..k][1..] == ws[1..][..k - 1] && ws[1..][k - 1] == ws[k];
    }
  }

  lemma {:induction false} SameWidth(segs: Segments, w: Token, delimiter: Byte)
    requires Stored(segs, w)
    ensures |TokenBytes(segs, w, delimiter)| == |TokenBytes(segs, w, SOH)|
  {
  }

  /** They are found where they were written. */
  lemma {:induction false} LabelsFound(segs: Segments, ws: seq<Token>, buf: seq<Byte>, at: nat, tail: seq<Token>,
                                       delimiter: Byte)
    requires AllClean(segs, ws, delimiter) && AllStored(segs, ws) && !IsDigit(delimiter)
    requires var s := BodyBytes(segs, ws, delimiter); at + |s| <= |buf| && buf[at..at + |s|] == s
    requires Tiled(buf, delimiter, tail, at + |BodyBytes(segs, ws, delimiter)|)
    ensures Tiled(buf, delimiter, Labels(segs, ws, at) + tail, at)
    ensures SameTokens(segs, Segments(buf, []), ws, Labels(segs, ws, at))
    decreases |ws|
  {
    hide *;
    if ws == [] {
      NoLabels(segs, at);
      assert [] + tail == tail;
      NoneSame(segs, Segments(buf, []), delimiter);
    } else {
      FirstClean(segs, ws, delimiter);
      BodyFirst(segs, ws, delimiter);
      var t, a, b := Label(segs, ws[0], at), TokenBytes(segs, ws[0], delimiter), BodyBytes(segs, ws[1..], delimiter);
      PartsJoined(buf, at, a, b);
      LabelSpells(segs, ws[0], buf, at, delimiter);
      SameWidth(segs, ws[0], delimiter);
      LabelsFound(segs, ws[1..], buf, at + |a|, tail, delimiter);
      LabelsOne(segs, ws, at);
      LabelAt(segs, ws[0], at);
      var rest := Labels(segs, ws[1..], at + |a|);
      assert [t] + rest + tail == [t] + (rest + tail) && ws == [ws[0]] + ws[1..];
      TiledMore(buf, delimiter, t, rest + tail, at);
      SameMore(segs, Segments(buf, []), ws[0], ws[1..], t, rest);
    }
  }

  lemma {:induction false} PartsJoined(buf: seq<Byte>, at: nat, a: seq<Byte>, b: seq<Byte>)
    requires at + |a + b| <= |buf| && buf[at..at + |a + b|] == a + b
    ensures buf[at..at + |a|] == a && buf[at + |a|..at + |a| + |b|] == b
  {
    Within(buf, at, a + b, 0, |a|);
    Within(buf, at, a + b, |a|, |a| + |b|);
    assert (a + b)[0..|a|] == a && (a + b)[|a|..|a| + |b|] == b;
  }

  lemma {:induction false} FirstClean(segs: Segments, ws: seq<Token>, delimiter: Byte)
    requires AllClean(segs, ws, delimiter) && ws != []
    ensures Clean(segs, ws[0], delimiter) && AllClean(segs, ws[1..], delimiter) && AllStored(segs, ws[1..]) && Stored(segs, ws[0])
  {
  }

  lemma {:induction false} TiledMore(buf: seq<Byte>, delimiter: Byte, t: Token, ts: seq<Token>, at: nat)
    requires t.entry.off == at && Spells(buf, delimiter, t) && Tiled(buf, delimiter, ts, End(t.entry))
    ensures Tiled(buf, delimiter, [t] + ts, at)
  {
    assert ([t] + ts)[1..] == ts;
  }

  lemma {:induction false} SameMore(segs: Segments, segs': Segments, w: Token, ws: seq<Token>, t: Token, ts: seq<Token>)
    requires SameToken(segs, segs', w, t) && SameTokens(segs, segs', ws, ts)
    ensures SameTokens(segs, segs', [w] + ws, [t] + ts)
  {
  }

  lemma {:induction false} NoLabels(segs: Segments, at: nat)
    ensures AllStored(segs, []) && Labels(segs, [], at) == []
  {
  }

  lemma {:induction false} NoneSame(segs: Segments, segs': Segments, delimiter: Byte)
    ensures SameTokens(segs, segs', [], []) && BodyBytes(segs, [], delimiter) == []
  {
  }

  lemma {:induction false} LabelAt(segs: Segments, w: Token, at: nat)
    requires Stored(segs, w)
    ensures Label(segs, w, at).entry.off == at
  {
  }

  lemma {:induction false} LabelsOne(segs: Segments, ws: seq<Token>, at: nat)
    requires AllStored(segs, ws) && ws != []
    ensures Labels(segs, ws, at) == [Label(segs, ws[0], at)] + Labels(segs, ws[1..], at + |TokenBytes(segs, ws[0], SOH)|)
  {
    hide Label, TokenBytes;
  }

  /** Whether Lengths and data go together does not depend on where the fields are. */
  lemma {:induction false} ChainedAnywhere(d: Dictionary, segs: Segments, ws: seq<Token>, from: nat, at: nat,
                                           pending: Option<Announced>, last: Token)
    requires AllStored(segs, ws) && Chained(d, pending, Labels(segs, ws, from))
    requires Follows(d, None, last) && !last.entry.kind.DataLen?
    ensures Chained(d, pending, Labels(segs, ws, at) + [last])
    decreases |ws|
  {
    hide *;
    if ws == [] {
      NoLabels(segs, from);
      NoLabels(segs, at);
      assert [] + [last] == [last];
      ChainedLast(d, pending, last);
    } else {
      RestStored(segs, ws);
      var n := |TokenBytes(segs, ws[0], SOH)|;
      var t, t' := Label(segs, ws[0], from), Label(segs, ws[0], at);
      LabelsOne(segs, ws, from);
      LabelsOne(segs, ws, at);
      LabelsAlike(segs, ws[0], from, at);
      ChainedRest(d, pending, t, Labels(segs, ws[1..], from + n));
      ChainedAnywhere(d, segs, ws[1..], from + n, at + n, Announcing(d, t), last);
      var rest := Labels(segs, ws[1..], at + n);
      assert [t'] + rest + [last] == [t'] + (rest + [last]);
      ChainedMore(d, pending, t, t', Labels(segs, ws[1..], from + n), rest + [last]);
    }
  }

  lemma {:induction false} ChainedLast(d: Dictionary, pending: Option<Announced>, last: Token)
    requires Chained(d, pending, []) && Follows(d, None, last) && !last.entry.kind.DataLen?
    ensures Chained(d, pending, [last])
  {
    assert [last][1..] == [];
  }

  lemma {:induction false} RestStored(segs: Segments, ws: seq<Token>)
    requires AllStored(segs, ws) && ws != []
    ensures Stored(segs, ws[0]) && AllStored(segs, ws[1..])
  {
  }

  lemma {:induction false} LabelsAlike(segs: Segments, w: Token, from: nat, at: nat)
    requires Stored(segs, w)
    ensures Label(segs, w, at) == Label(segs, w, from).(entry := Label(segs, w, from).entry.(off := at))
  {
  }

  lemma {:induction false} ChainedRest(d: Dictionary, pending: Option<Announced>, t: Token, ts: seq<Token>)
    requires Chained(d, pending, [t] + ts)
    ensures Chained(d, Announcing(d, t), ts)
  {
    assert ([t] + ts)[1..] == ts;
  }

  lemma {:induction false} ChainedMore(d: Dictionary, pending: Option<Announced>, t: Token, t': Token, ts: seq<Token>,
                                       ts': seq<Token>)
    requires Chained(d, pending, [t] + ts) && t' == t.(entry := t.entry.(off := t'.entry.off))
    requires Chained(d, Announcing(d, t), ts')
    ensures Chained(d, pending, [t'] + ts')
  {
    assert ([t'] + ts')[1..] == ts' && ([t] + ts)[0] == t;
  }

  // ---------------------------------------------------------------------
  // The whole message
  // ---------------------------------------------------------------------

  /** A plain field that is found at an index. */
  function FieldAt(tag: nat, at: nat, value: seq<Byte>): Token {
    Token(Entry(tag, Field, 0, Wire, |Digits(tag)| + 1, at, |value|), NumberOf(value))
  }

  lemma {:induction false} FieldSpells(buf: seq<Byte>, tag: nat, at: nat, value: seq<Byte>, delimiter: Byte)
    requires 0 < tag <= MAX_TAG && value != [] && delimiter !in value
    requires var whole := Digits(tag) + [EQUALS] + value + [delimiter]; at + |whole| <= |buf| && buf[at..at + |whole|] == whole
    ensures var t := FieldAt(tag, at, value);
            Spells(buf, delimiter, t) && Text(buf, t.entry) == value && End(t.entry) == at + |Digits(tag)| + 1 + |value| + 1
  {
    hide Digits, NumberOf;
    PartsAt(buf, at, Digits(tag), value, delimiter);
  }

  /** A message that can be read back from its bytes: MsgType first, no other field that frames, all of them clean. */
  predicate Writable(d: Dictionary, segs: Segments, ws: seq<Token>, delimiter: Byte) {
    && !IsDigit(delimiter) && d.beginString != [] && delimiter !in d.beginString
    && AllClean(segs, ws, delimiter) && AllStored(segs, ws)
    && ws != [] && ws[0].entry.tag == 35 && AllAlphanumeric(Said(segs, ws[0]))
    && (forall i :: 1 <= i < |ws| ==> ws[i].entry.tag !in FIRST && ws[i].entry.tag != 10)
    && Chained(d, None, Labels(segs, ws, 0))
    && |BodyBytes(segs, ws, SOH)| <= MAX_UINT
  }

  /** Where the body is. */
  function BodyAt(d: Dictionary, segs: Segments, ws: seq<Token>): nat
    requires AllStored(segs, ws)
  {
    |Output.Prefix(d.beginString, |BodyBytes(segs, ws, SOH)|, SOH)|
  }

  function CheckSumOf(d: Dictionary, segs: Segments, ws: seq<Token>): Byte
    requires AllStored(segs, ws)
  {
    Sum(Front(segs, ws, d.beginString, SOH)) % 256
  }

  /** The fields that are found in a written message. */
  function FieldsFound(d: Dictionary, segs: Segments, ws: seq<Token>): seq<Token>
    requires AllStored(segs, ws)
  {
    var n, at := |BodyBytes(segs, ws, SOH)|, BodyAt(d, segs, ws);
    [FieldAt(8, 0, d.beginString), FieldAt(9, |d.beginString| + 3, Digits(n))]
    + (Labels(segs, ws, at) + [FieldAt(10, at + n, ThreeDigits(CheckSumOf(d, segs, ws)))])
  }

  lemma {:induction false} FewDigits()
    ensures Digits(8) == [56] && Digits(9) == [57] && Digits(10) == [49, 48]
  {
    assert Digits(10) == Digits(1) + [ZERO];
  }

  /** BeginString and BodyLength. */
  lemma {:induction false} PrefixFound(d: Dictionary, buf: seq<Byte>, n: nat, delimiter: Byte)
    requires d.beginString != [] && delimiter !in d.beginString && !IsDigit(delimiter)
    requires var a := Output.Prefix(d.beginString, n, delimiter); |a| <= |buf| && buf[..|a|] == a
    ensures var t8, t9 := FieldAt(8, 0, d.beginString), FieldAt(9, |d.beginString| + 3, Digits(n));
            && Spells(buf, delimiter, t8) && Text(buf, t8.entry) == d.beginString && End(t8.entry) == |d.beginString| + 3
            && Spells(buf, delimiter, t9) && Text(buf, t9.entry) == Digits(n)
            && End(t9.entry) == |Output.Prefix(d.beginString, n, delimiter)|
  {
    FewDigits();
    DigitsAreDigits(n);
    hide Digits;
    var a, b := Digits(8) + [EQUALS] + d.beginString + [delimiter], Digits(9) + [EQUALS] + Digits(n) + [delimiter];
    assert Output.Prefix(d.beginString, n, delimiter) == a + b;
    PartsJoined(buf, 0, a, b);
    FieldSpells(buf, 8, 0, d.beginString, delimiter);
    FieldSpells(buf, 9, |a|, Digits(n), delimiter);
  }

  lemma {:induction false} CheckSumFound(buf: seq<Byte>, at: nat, c: Byte, delimiter: Byte)
    requires !IsDigit(delimiter) && at + 7 == |buf| && buf[at..] == CheckSumField(c, delimiter)
    ensures var t := FieldAt(10, at, ThreeDigits(c));
            && Spells(buf, delimiter, t) && Text(buf, t.entry) == ThreeDigits(c) && ThreeOf(ThreeDigits(c)) == Some(c)
            && Tiled(buf, delimiter, [t], at) && End(t.entry) == |buf|
  {
    FewDigits();
    ThreeDigitsRead(c);
    hide Digits, ThreeDigits, NumberOf;
    var whole := Digits(10) + [EQUALS] + ThreeDigits(c) + [delimiter];
    assert whole == CheckSumField(c, delimiter) && buf[at..at + |whole|] == buf[at..];
    assert delimiter !in ThreeDigits(c);
    FieldSpells(buf, 10, at, ThreeDigits(c), delimiter);
    var t := FieldAt(10, at, ThreeDigits(c));
    assert [t][1..] == [] && Tiled(buf, delimiter, [], |buf|);
  }

  /** Everything that is found is there. */
  lemma {:induction false} FoundThere(d: Dictionary, segs: Segments, ws: seq<Token>, delimiter: Byte)
    requires Writable(d, segs, ws, delimiter)
    ensures var buf, ts := Encoded(segs, ws, d.beginString, delimiter), FieldsFound(d, segs, ws);
            && Tiled(buf, delimiter, ts, 0)
            && SameTokens(segs, Segments(buf, []), ws, Labels(segs, ws, BodyAt(d, segs, ws)))
            && End(ts[0].entry) <= |buf| && Text(buf, ts[0].entry) == d.beginString
            && End(ts[1].entry) == BodyAt(d, segs, ws) <= |buf|
            && ts[|ts| - 1].entry.off == BodyAt(d, segs, ws) + |BodyBytes(segs, ws, SOH)|
            && End(ts[|ts| - 1].entry) <= |buf| && Text(buf, ts[|ts| - 1].entry) == ThreeDigits(CheckSumOf(d, segs, ws))
            && ThreeOf(ThreeDigits(CheckSumOf(d, segs, ws))) == Some(CheckSumOf(d, segs, ws))
            && buf[..ts[|ts| - 1].entry.off] == Front(segs, ws, d.beginString, delimiter)
  {
    hide Digits, NumberOf, BodyBytes, Sum, Output.Prefix, CheckSumField, ThreeDigits, ThreeOf, Tiled, Spells, Text, Labels, Chained, AllClean, SameTokens;
    var buf, n, at := Encoded(segs, ws, d.beginString, delimiter), |BodyBytes(segs, ws, SOH)|, BodyAt(d, segs, ws);
    BodyLengthIsRight(segs, ws, d.beginString, delimiter);
    PrefixDelimited(d.beginString, n, delimiter);
    BodyDelimited(segs, ws, delimiter);
    var t8, t9 := FieldAt(8, 0, d.beginString), FieldAt(9, |d.beginString| + 3, Digits(n));
    var t10 := FieldAt(10, at + n, ThreeDigits(CheckSumOf(d, segs, ws)));
    PrefixFound(d, buf, n, delimiter);
    CheckSumFound(buf, at + n, CheckSumOf(d, segs, ws), delimiter);
    LabelsFound(segs, ws, buf, at, [t10], delimiter);
    var rest := Labels(segs, ws, at) + [t10];
    TiledMore(buf, delimiter, t9, rest, |d.beginString| + 3);
    TiledMore(buf, delimiter, t8, [t9] + rest, 0);
    assert [t8] + ([t9] + rest) == [t8, t9] + rest;
  }

  /** The order of the fields, and Lengths with their data. */
  lemma {:induction false} FoundChained(d: Dictionary, segs: Segments, ws: seq<Token>, delimiter: Byte)
    requires Sane(d) && Writable(d, segs, ws, delimiter)
    ensures Chained(d, None, FieldsFound(d, segs, ws))
  {
    hide Digits, NumberOf, BodyBytes, Sum, Output.Prefix, ThreeDigits, Labels, AllClean, Front;
    var n, at := |BodyBytes(segs, ws, SOH)|, BodyAt(d, segs, ws);
    var t8, t9 := FieldAt(8, 0, d.beginString), FieldAt(9, |d.beginString| + 3, Digits(n));
    var t10 := FieldAt(10, at + n, ThreeDigits(CheckSumOf(d, segs, ws)));
    assert FIRST[0] !in d.dataOf && FIRST[1] !in d.dataOf;
    ChainedAnywhere(d, segs, ws, 0, at, None, t10);
    var rest := Labels(segs, ws, at) + [t10];
    assert ([t9] + rest)[1..] == rest && ([t8] + ([t9] + rest))[1..] == [t9] + rest;
    assert Chained(d, None, [t9] + rest);
    assert [t8] + ([t9] + rest) == [t8, t9] + rest;
  }

  lemma {:induction false} FoundTags(d: Dictionary, segs: Segments, ws: seq<Token>, delimiter: Byte)
    requires Writable(d, segs, ws, delimiter)
    ensures var ts := FieldsFound(d, segs, ws);
            && |ts| == |ws| + 3 && ts[0].entry.tag == 8 && ts[1].entry.tag == 9 && ts[2].entry.tag == 35
            && ts[1].number == Some(|BodyBytes(segs, ws, SOH)|)
            && ts[2] == Label(segs, ws[0], BodyAt(d, segs, ws))
            && forall i :: 3 <= i < |ts| ==> ts[i].entry.tag !in FIRST && (ts[i].entry.tag == 10 <==> i == |ts| - 1)
  {
    hide Digits, BodyBytes, Sum, Output.Prefix, ThreeDigits, AllClean, Front, Chained, TokenBytes;
    var n := |BodyBytes(segs, ws, SOH)|;
    ReadBack(n);
    var ts, xs := FieldsFound(d, segs, ws), Labels(segs, ws, BodyAt(d, segs, ws));
    assert forall i :: 0 <= i < |xs| ==> ts[i + 2] == xs[i];
    forall i | 3 <= i < |ts|
      ensures ts[i].entry.tag !in FIRST && (ts[i].entry.tag == 10 <==> i == |ts| - 1)
    {
      if i < |ts| - 1 {
        assert ts[i] == xs[i - 2] && xs[i - 2].entry.tag == ws[i - 2].entry.tag;
      }
    }
  }

  /** What the encoder writes is a message: BodyLength and CheckSum are what the parser finds. */
  lemma {:induction false} EncodedIsMessage(d: Dictionary, segs: Segments, ws: seq<Token>, delimiter: Byte)
    requires Sane(d) && Writable(d, segs, ws, delimiter)
    ensures IsMessage(d, Encoded(segs, ws, d.beginString, delimiter), delimiter, FieldsFound(d, segs, ws))
    ensures MsgTypeOf(Encoded(segs, ws, d.beginString, delimiter), FieldsFound(d, segs, ws)) == Some(Said(segs, ws[0]))
  {
    hide Digits, BodyBytes, Sum, Output.Prefix, ThreeDigits, AllClean, Chained, TokenBytes, Tiled, FieldsFound, Front, Label,
         SameTokens, NumberOf, ThreeOf, SohChecksum, Labels;
    var buf, ts := Encoded(segs, ws, d.beginString, delimiter), FieldsFound(d, segs, ws);
    FoundThere(d, segs, ws, delimiter);
    FoundChained(d, segs, ws, delimiter);
    FoundTags(d, segs, ws, delimiter);
    TypeFound(d, segs, ws, delimiter);
    ChecksumIsTheWires(segs, ws, d.beginString, delimiter);
    assert ts[3..][|ts[3..]| - 1] == ts[|ts| - 1];
  }

  lemma {:induction false} TypeFound(d: Dictionary, segs: Segments, ws: seq<Token>, delimiter: Byte)
    requires Writable(d, segs, ws, delimiter)
    ensures var buf, t := Encoded(segs, ws, d.beginString, delimiter), Label(segs, ws[0], BodyAt(d, segs, ws));
            End(t.entry) <= |buf| && Text(buf, t.entry) == Said(segs, ws[0])
  {
    hide Digits, Sum, Output.Prefix, CheckSumField, Chained, NumberOf, BodyBytes, TokenBytes, Labels, Label;
    var buf, at := Encoded(segs, ws, d.beginString, delimiter), BodyAt(d, segs, ws);
    BodyLengthIsRight(segs, ws, d.beginString, delimiter);
    PrefixDelimited(d.beginString, |BodyBytes(segs, ws, SOH)|, delimiter);
    BodyDelimited(segs, ws, delimiter);
    BodyFirst(segs, ws, delimiter);
    PartsJoined(buf, at, TokenBytes(segs, ws[0], delimiter), BodyBytes(segs, ws[1..], delimiter));
    LabelSpells(segs, ws[0], buf, at, delimiter);
  }
}
