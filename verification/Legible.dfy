/**
 * Which bytes are a message, said of its fields at once: the parser's loop accepts exactly the
 * bytes that are fields laid end to end, framed, with data as long as announced, and the fields
 * that the stack machine accepts.
 */
module Legible {
  import opened Tape
  import opened Numerals
  import opened Storage
  import opened Output
  import opened Parsing
  import opened Lexing
  import opened Machines

  // ---------------------------------------------------------------------
  // Fields laid end to end
  // ---------------------------------------------------------------------

  function Text(buf: seq<Byte>, e: Entry): seq<Byte>
    requires End(e) <= |buf|
  {
    Value(Segments(buf, []), e.(seg := Wire))
  }

  /** A field is there: its tag, an equals sign, a value that is not empty, and a delimiter. */
  predicate Spells(buf: seq<Byte>, delimiter: Byte, t: Token) {
    var e := t.entry;
    && e.seg.Wire? && e.depth == 0 && e.IsField()
    && End(e) <= |buf| && 0 < e.tag <= MAX_TAG && e.len > 0
    && buf[e.off..e.off + e.valOff] == Digits(e.tag) + [EQUALS]
    && buf[End(e) - 1] == delimiter
    && (e.kind.Data? || delimiter !in Text(buf, e))
    && t.number == NumberOf(Text(buf, e))
  }

  /** Fields that follow each other from an index to the end. */
  predicate Tiled(buf: seq<Byte>, delimiter: Byte, ts: seq<Token>, from: nat) {
    if ts == [] then from == |buf|
    else ts[0].entry.off == from && Spells(buf, delimiter, ts[0]) && Tiled(buf, delimiter, ts[1..], End(ts[0].entry))
  }

  /** A field that may come: the data that was announced, or one that is not data. */
  predicate Follows(d: Dictionary, pending: Option<Announced>, t: Token) {
    match pending
    case Some(a) => t.entry.kind.Data? && t.entry.tag == a.tag && t.entry.len == a.length
    case None => t.entry.kind == (if t.entry.tag in d.dataOf then DataLen else Field)
  }

  /** What it announces. */
  function Announcing(d: Dictionary, t: Token): Option<Announced> {
    if t.entry.kind.DataLen? && t.entry.tag in d.dataOf && t.number.Some? then
      Some(Announced(d.dataOf[t.entry.tag], t.number.value))
    else None
  }

  /** Every Length is a number and followed by data of that length, and there is no other data. */
  predicate Chained(d: Dictionary, pending: Option<Announced>, ts: seq<Token>)
    decreases ts
  {
    if ts == [] then pending.None?
    else
      && Follows(d, pending, ts[0])
      && (ts[0].entry.kind.DataLen? ==> ts[0].number.Some?)
      && Chained(d, Announcing(d, ts[0]), ts[1..])
  }

  /** The rules for one field, by its place. */
  predicate FieldRule(d: Dictionary, buf: seq<Byte>, ordinal: nat, t: Token)
    requires End(t.entry) <= |buf|
  {
    && (if ordinal < 3 then t.entry.tag == FIRST[ordinal] else t.entry.tag !in FIRST)
    && (t.entry.tag == 8 ==> Text(buf, t.entry) == d.beginString)
    && (t.entry.tag == 9 ==> t.number.Some?)
    && (t.entry.tag == 35 ==> AllAlphanumeric(Text(buf, t.entry)))
    && (t.entry.tag == 10 ==> ThreeOf(Text(buf, t.entry)).Some?)
  }

  /** A place in the bytes, once the field there has been read. */
  function Noted(d: Dictionary, buf: seq<Byte>, s: Scan, t: Token): Scan
    requires End(t.entry) <= |buf| && FieldRule(d, buf, s.ordinal, t)
  {
    var tag, value := t.entry.tag, Text(buf, t.entry);
    Scan(End(t.entry), Announcing(d, t), s.ordinal + 1,
         if tag == 10 then Some((s.pos, ThreeOf(value).value)) else s.checksum,
         if tag == 9 then Some((t.number.value, s.pos + 2 + |value| + 1)) else s.bodyLength,
         if tag == 35 then Some(value) else s.msgType)
  }

  /** One field may come here, and it is this one. */
  predicate Comes(d: Dictionary, buf: seq<Byte>, delimiter: Byte, s: Scan, t: Token) {
    && t.entry.off == s.pos && Spells(buf, delimiter, t)
    && Follows(d, s.pending, t) && (t.entry.kind.DataLen? ==> t.number.Some?)
    && FieldRule(d, buf, s.ordinal, t)
  }

  lemma {:induction false} FoundField(d: Dictionary, buf: seq<Byte>, delimiter: Byte, s: Scan)
    requires s.pos < |buf| && NextField(d, buf, delimiter, s).Ok?
    ensures var (t, s') := NextField(d, buf, delimiter, s).value;
            Comes(d, buf, delimiter, s, t) && s' == Noted(d, buf, s, t)
  {
    hide Digits, SohChecksum;
    var (tag, at) := TagFrom(buf, s.pos, s.pos, 0).value;
    TagIsWritten(buf, s.pos, s.pos, 0);
    var (kind, end) := ValueEnd(d, buf, delimiter, s.pending, tag, at).value;
    var (t, s') := NextField(d, buf, delimiter, s).value;
    assert s.pos + (at - s.pos) == at && End(t.entry) == end + 1;
    assert Text(buf, t.entry) == buf[at..end];
  }

  /** Where a delimiter is first found. */
  lemma {:induction false} FindIs(buf: seq<Byte>, i: nat, end: nat, delimiter: Byte)
    requires i <= end < |buf| && buf[end] == delimiter && delimiter !in buf[i..end]
    ensures Find(buf, i, delimiter) == end
  {
  }

  lemma {:induction false} FieldIsFound(d: Dictionary, buf: seq<Byte>, delimiter: Byte, s: Scan, t: Token)
    requires s.pos < |buf| && Comes(d, buf, delimiter, s, t)
    ensures NextField(d, buf, delimiter, s) == Ok((t, Noted(d, buf, s, t)))
  {
    hide Digits, SohChecksum, TagFrom, Find;
    var e := t.entry;
    var at, end := e.off + e.valOff, End(e) - 1;
    assert |buf[e.off..at]| == |Digits(e.tag)| + 1;
    TagReads(buf, s.pos, e.tag);
    assert Text(buf, e) == buf[at..end];
    if s.pending.None? {
      FindIs(buf, at, end, delimiter);
    }
  }

  // ---------------------------------------------------------------------
  // The fields behind MsgType
  // ---------------------------------------------------------------------

  /** Neither BeginString, BodyLength nor MsgType is among them, and CheckSum is the last. */
  predicate RestRules(buf: seq<Byte>, ts: seq<Token>) {
    && ts != [] && End(ts[|ts| - 1].entry) <= |buf| && ThreeOf(Text(buf, ts[|ts| - 1].entry)).Some?
    && forall i :: 0 <= i < |ts| ==> ts[i].entry.tag !in FIRST && (ts[i].entry.tag == 10 <==> i == |ts| - 1)
  }

  /** The fields from a place on are these. */
  predicate Rest(d: Dictionary, buf: seq<Byte>, delimiter: Byte, s: Scan, ts: seq<Token>) {
    Tiled(buf, delimiter, ts, s.pos) && Chained(d, s.pending, ts) && RestRules(buf, ts)
  }

  /** The place once they have come. */
  function Past(buf: seq<Byte>, s: Scan, ts: seq<Token>): Scan
    requires RestRules(buf, ts)
  {
    var last := ts[|ts| - 1].entry;
    Scan(|buf|, None, s.ordinal + |ts|, Some((last.off, ThreeOf(Text(buf, last)).value)), s.bodyLength, s.msgType)
  }

  /** Where the fields may start: MsgType has come, CheckSum has not. */
  predicate Midway(buf: seq<Byte>, s: Scan, m: Machine) {
    s.pos <= |buf| && s.ordinal >= 3 && s.checksum.None? && m.Sound()
  }

  lemma {:induction false} RestOne(d: Dictionary, buf: seq<Byte>, delimiter: Byte, s: Scan, t: Token)
    requires s.ordinal >= 3 && t.entry.tag == 10 && Comes(d, buf, delimiter, s, t) && End(t.entry) == |buf|
    requires Announcing(d, t) == None
    ensures Rest(d, buf, delimiter, s, [t]) && Past(buf, s, [t]) == Noted(d, buf, s, t)
  {
    assert [t][1..] == [];
  }

  lemma {:induction false} RestMore(d: Dictionary, buf: seq<Byte>, delimiter: Byte, s: Scan, t: Token, ts: seq<Token>)
    requires s.ordinal >= 3 && t.entry.tag != 10 && Comes(d, buf, delimiter, s, t)
    requires Rest(d, buf, delimiter, Noted(d, buf, s, t), ts)
    ensures Rest(d, buf, delimiter, s, [t] + ts) && Past(buf, s, [t] + ts) == Past(buf, Noted(d, buf, s, t), ts)
  {
    var all := [t] + ts;
    assert all[1..] == ts && all[0] == t && all[|all| - 1] == ts[|ts| - 1];
    assert forall i :: 1 <= i < |all| ==> all[i] == ts[i - 1];
  }

  /** The loop, from there on: what it accepts is fields laid end to end. */
  lemma {:induction false} RunReads(d: Dictionary, buf: seq<Byte>, delimiter: Byte, s: Scan, m: Machine)
    returns (ts: seq<Token>)
    requires Midway(buf, s, m) && RunFrom(d, buf, delimiter, s, m).Ok?
    requires Complete(buf, delimiter, RunFrom(d, buf, delimiter, s, m).value.0)
    ensures Rest(d, buf, delimiter, s, ts) && ts == FieldsFrom(d, buf, delimiter, s)
    ensures var (s', m') := RunFrom(d, buf, delimiter, s, m).value;
            s' == Past(buf, s, ts) && Ran(Tables(d, s.msgType), m, ts) == Ok(m')
    decreases |buf| - s.pos
  {
    hide Rest, Past, Pushed, Complete, Comes, Noted, NextField;
    CompleteHas(buf, delimiter, RunFrom(d, buf, delimiter, s, m).value.0);
    FoundField(d, buf, delimiter, s);
    var (t, s') := NextField(d, buf, delimiter, s).value;
    NotedRest(d, buf, delimiter, s, t);
    var m' := Pushed(Tables(d, s'.msgType), m, t).value;
    if t.entry.tag == 10 {
      ts := [t];
      RestOne(d, buf, delimiter, s, t);
      RanOne(Tables(d, s.msgType), m, t);
    } else {
      var rest := RunReads(d, buf, delimiter, s', m');
      ts := [t] + rest;
      RestMore(d, buf, delimiter, s, t, rest);
      RanMore(Tables(d, s.msgType), m, t, m', rest);
    }
  }

  lemma {:induction false} CompleteHas(buf: seq<Byte>, delimiter: Byte, s: Scan)
    requires Complete(buf, delimiter, s)
    ensures s.pos == |buf| && s.pending.None? && s.checksum.Some?
  {
  }

  lemma {:induction false} NotedRest(d: Dictionary, buf: seq<Byte>, delimiter: Byte, s: Scan, t: Token)
    requires s.ordinal >= 3 && Comes(d, buf, delimiter, s, t)
    ensures var s' := Noted(d, buf, s, t);
            && s'.msgType == s.msgType && s'.bodyLength == s.bodyLength && s'.ordinal == s.ordinal + 1
            && s'.pos == End(t.entry) && s'.pending == Announcing(d, t)
            && s.pos < s'.pos <= |buf|
            && (if t.entry.tag == 10 then s'.checksum.Some? else s'.checksum == s.checksum)
  {
    hide Digits;
  }

  lemma {:induction false} RanOne(dict: Dict, m: Machine, t: Token)
    requires m.Sound()
    ensures Ran(dict, m, [t]) == Pushed(dict, m, t)
  {
    hide Pushed;
    assert [t][1..] == [];
  }

  lemma {:induction false} RanMore(dict: Dict, m: Machine, t: Token, m': Machine, ts: seq<Token>)
    requires m.Sound() && Pushed(dict, m, t) == Ok(m')
    ensures Ran(dict, m, [t] + ts) == Ran(dict, m', ts)
  {
    hide Pushed;
    assert ([t] + ts)[1..] == ts;
  }

  lemma {:induction false} RestParts(d: Dictionary, buf: seq<Byte>, delimiter: Byte, s: Scan, ts: seq<Token>)
    requires s.ordinal >= 3 && Rest(d, buf, delimiter, s, ts)
    ensures ts != [] && Comes(d, buf, delimiter, s, ts[0])
    ensures if |ts| == 1 then ts[0].entry.tag == 10 && End(ts[0].entry) == |buf| && Announcing(d, ts[0]) == None
            else ts[0].entry.tag != 10 && Rest(d, buf, delimiter, Noted(d, buf, s, ts[0]), ts[1..])
  {
    assert Tiled(buf, delimiter, ts[1..], End(ts[0].entry)) && Chained(d, Announcing(d, ts[0]), ts[1..]);
    if |ts| > 1 {
      var rest := ts[1..];
      assert rest[|rest| - 1] == ts[|ts| - 1];
      assert forall i :: 0 <= i < |rest| ==> rest[i] == ts[i + 1];
    }
  }

  /** And fields laid end to end are what it accepts. */
  lemma {:induction false} ReadsRun(d: Dictionary, buf: seq<Byte>, delimiter: Byte, s: Scan, m: Machine, ts: seq<Token>)
    requires Midway(buf, s, m) && Rest(d, buf, delimiter, s, ts)
    ensures RunFrom(d, buf, delimiter, s, m)
            == match Ran(Tables(d, s.msgType), m, ts) { case Err(e) => Err(e) case Ok(m') => Ok((Past(buf, s, ts), m')) }
    decreases |ts|
  {
    hide Rest, Past, Pushed, Comes, Noted, NextField;
    RestParts(d, buf, delimiter, s, ts);
    var t := ts[0];
    NotedRest(d, buf, delimiter, s, t);
    FieldIsFound(d, buf, delimiter, s, t);
    var s' := Noted(d, buf, s, t);
    match Pushed(Tables(d, s.msgType), m, t) {
      case Err(_) =>
      case Ok(m') =>
        if |ts| == 1 {
          assert ts == [t] && ts[1..] == [];
          RestOne(d, buf, delimiter, s, t);
        } else {
          assert ts == [t] + ts[1..];
          RestMore(d, buf, delimiter, s, t, ts[1..]);
          ReadsRun(d, buf, delimiter, s', m', ts[1..]);
        }
    }
  }

  // ---------------------------------------------------------------------
  // Whole messages
  // ---------------------------------------------------------------------

  /** BeginString, BodyLength and MsgType are plain fields of the header, and CheckSum of the trailer. */
  predicate Sane(d: Dictionary) {
    && (forall k :: 0 <= k < 3 ==> FIRST[k] in d.headerTags && FIRST[k] !in d.headerGroups && FIRST[k] !in d.dataOf)
    && 10 in d.trailerTags && 10 !in d.headerTags && 10 !in d.dataOf
  }

  /** The bytes are these fields, and they frame a message: BodyLength and CheckSum are right. */
  predicate IsMessage(d: Dictionary, buf: seq<Byte>, delimiter: Byte, ts: seq<Token>) {
    && |ts| > 3
    && Tiled(buf, delimiter, ts, 0) && Chained(d, None, ts)
    && (forall k :: 0 <= k < 3 ==> End(ts[k].entry) <= |buf| && FieldRule(d, buf, k, ts[k]))
    && RestRules(buf, ts[3..])
    && var last := ts[|ts| - 1].entry;
       && ts[1].number == Some(last.off - End(ts[1].entry))
       && ThreeOf(Text(buf, last)) == Some(SohChecksum(buf[..last.off], |ts| - 1, delimiter) as nat)
  }

  function MsgTypeOf(buf: seq<Byte>, ts: seq<Token>): Option<seq<Byte>>
    requires |ts| > 3 && End(ts[2].entry) <= |buf|
  {
    Some(Text(buf, ts[2].entry))
  }

  /** The place once MsgType has come, and the tape with the first three fields. */
  function AtFourth(buf: seq<Byte>, ts: seq<Token>): Scan
    requires |ts| >= 3 && ts[1].number.Some? && End(ts[2].entry) <= |buf|
  {
    Scan(End(ts[2].entry), None, 3, None, Some((ts[1].number.value, End(ts[1].entry))), Some(Text(buf, ts[2].entry)))
  }

  function Opening(ts: seq<Token>): Machine
    requires |ts| >= 3
  {
    EMPTY.(tape := [ts[0].entry, ts[1].entry, ts[2].entry])
  }

  /** The header's first fields are on the tape. */
  predicate HeaderOnly(m: Machine, entries: seq<Entry>) {
    m == EMPTY.(tape := entries)
  }

  lemma {:induction false} FirstPushed(d: Dictionary, msgType: Option<seq<Byte>>, m: Machine, entries: seq<Entry>,
                                       t: Token)
    requires HeaderOnly(m, entries) && t.entry.depth == 0 && t.entry.tag in d.headerTags && t.entry.tag !in d.headerGroups
    ensures m.Sound()
    ensures Pushed(Tables(d, msgType), m, t) == Ok(EMPTY.(tape := entries + [t.entry]))
  {
  }

  /** One of the first three fields. */
  predicate Leads(d: Dictionary, buf: seq<Byte>, delimiter: Byte, s: Scan, t: Token) {
    s.ordinal < 3 && s.pos < |buf| && s.pending.None? && s.checksum.None? && Comes(d, buf, delimiter, s, t)
  }

  lemma {:induction false} LeadRuns(d: Dictionary, buf: seq<Byte>, delimiter: Byte, s: Scan, m: Machine,
                                    entries: seq<Entry>, t: Token)
    requires Sane(d) && Leads(d, buf, delimiter, s, t) && HeaderOnly(m, entries)
    ensures m.Sound()
    ensures var s', m' := Noted(d, buf, s, t), EMPTY.(tape := entries + [t.entry]);
            && m'.Sound() && s'.pos <= |buf| && s'.pending.None? && s'.checksum.None? && s'.ordinal == s.ordinal + 1
            && RunFrom(d, buf, delimiter, s, m) == RunFrom(d, buf, delimiter, s', m')
  {
    hide Pushed, Digits;
    FieldIsFound(d, buf, delimiter, s, t);
    var s' := Noted(d, buf, s, t);
    assert t.entry.tag == FIRST[s.ordinal];
    FirstPushed(d, s'.msgType, m, entries, t);
  }

  /** The first three fields come one after the other. */
  predicate AllLead(d: Dictionary, buf: seq<Byte>, delimiter: Byte, a: Token, b: Token, c: Token) {
    && Leads(d, buf, delimiter, START, a)
    && Leads(d, buf, delimiter, Noted(d, buf, START, a), b)
    && Leads(d, buf, delimiter, Noted(d, buf, Noted(d, buf, START, a), b), c)
  }

  lemma {:induction false} ThreeRun(d: Dictionary, buf: seq<Byte>, delimiter: Byte, ts: seq<Token>)
    requires Sane(d) && |ts| >= 3 && AllLead(d, buf, delimiter, ts[0], ts[1], ts[2])
    ensures ts[1].number.Some? && End(ts[2].entry) <= |buf| && Midway(buf, AtFourth(buf, ts), Opening(ts))
    ensures EMPTY.Sound()
    ensures RunFrom(d, buf, delimiter, START, EMPTY) == RunFrom(d, buf, delimiter, AtFourth(buf, ts), Opening(ts))
    ensures forall msgType :: Ran(Tables(d, msgType), EMPTY, ts) == Ran(Tables(d, msgType), Opening(ts), ts[3..])
  {
    var a, b, c := ts[0], ts[1], ts[2];
    ThreeNoted(d, buf, delimiter, ts);
    hide RunFrom, FieldsFrom, Comes, Noted, Tables, Digits;
    var s1 := Noted(d, buf, START, a);
    var s2 := Noted(d, buf, s1, b);
    LeadRuns(d, buf, delimiter, START, EMPTY, [], a);
    LeadRuns(d, buf, delimiter, s1, EMPTY.(tape := [a.entry]), [a.entry], b);
    LeadRuns(d, buf, delimiter, s2, EMPTY.(tape := [a.entry, b.entry]), [a.entry, b.entry], c);
    assert [] + [a.entry] == [a.entry] && [a.entry] + [b.entry] == [a.entry, b.entry];
    assert [a.entry, b.entry] + [c.entry] == [a.entry, b.entry, c.entry];
    forall msgType
      ensures Ran(Tables(d, msgType), EMPTY, ts) == Ran(Tables(d, msgType), Opening(ts), ts[3..])
    {
      ThreeRan(d, msgType, ts);
    }
  }

  lemma {:induction false} ThreeFound(d: Dictionary, buf: seq<Byte>, delimiter: Byte, ts: seq<Token>)
    requires Sane(d) && |ts| >= 3 && AllLead(d, buf, delimiter, ts[0], ts[1], ts[2])
    ensures ts[1].number.Some? && End(ts[2].entry) <= |buf|
    ensures FieldsFrom(d, buf, delimiter, START) == [ts[0], ts[1], ts[2]] + FieldsFrom(d, buf, delimiter, AtFourth(buf, ts))
  {
    ThreeNoted(d, buf, delimiter, ts);
    hide FieldsFrom, Spells, Sane, Text, AllAlphanumeric, ThreeOf, Noted;
    var a, b, c := ts[0], ts[1], ts[2];
    var s1 := Noted(d, buf, START, a);
    var s2 := Noted(d, buf, s1, b);
    hide Leads, Comes, FieldRule, Follows;
    LeadFound(d, buf, delimiter, START, a);
    LeadFound(d, buf, delimiter, s1, b);
    LeadFound(d, buf, delimiter, s2, c);
    InOrder(a, b, c, FieldsFrom(d, buf, delimiter, AtFourth(buf, ts)));
  }

  lemma {:induction false} InOrder(a: Token, b: Token, c: Token, rest: seq<Token>)
    ensures [a] + ([b] + ([c] + rest)) == [a, b, c] + rest
  {
  }

  lemma {:induction false} LeadFound(d: Dictionary, buf: seq<Byte>, delimiter: Byte, s: Scan, t: Token)
    requires Leads(d, buf, delimiter, s, t)
    ensures FieldsFrom(d, buf, delimiter, s) == [t] + FieldsFrom(d, buf, delimiter, Noted(d, buf, s, t))
  {
    hide Comes, Noted, NextField;
    FieldIsFound(d, buf, delimiter, s, t);
  }

  lemma {:induction false} ThreeNoted(d: Dictionary, buf: seq<Byte>, delimiter: Byte, ts: seq<Token>)
    requires Sane(d) && |ts| >= 3 && AllLead(d, buf, delimiter, ts[0], ts[1], ts[2])
    ensures ts[1].number.Some? && End(ts[2].entry) <= |buf|
    ensures Noted(d, buf, Noted(d, buf, Noted(d, buf, START, ts[0]), ts[1]), ts[2]) == AtFourth(buf, ts)
    ensures forall k :: 0 <= k < 3 ==>
              ts[k].entry.depth == 0 && ts[k].entry.tag in d.headerTags && ts[k].entry.tag !in d.headerGroups
  {
    var e := ts[1].entry;
    assert ts[0].entry.tag == FIRST[0] && e.tag == FIRST[1] && ts[2].entry.tag == FIRST[2];
    assert |buf[e.off..e.off + e.valOff]| == |Digits(9)| + 1 == 2;
    assert |Text(buf, e)| == e.len;
  }

  lemma {:induction false} ThreeRan(d: Dictionary, msgType: Option<seq<Byte>>, ts: seq<Token>)
    requires |ts| >= 3
    requires forall k :: 0 <= k < 3 ==>
               ts[k].entry.depth == 0 && ts[k].entry.tag in d.headerTags && ts[k].entry.tag !in d.headerGroups
    ensures EMPTY.Sound() && Opening(ts).Sound()
    ensures Ran(Tables(d, msgType), EMPTY, ts) == Ran(Tables(d, msgType), Opening(ts), ts[3..])
  {
    hide Pushed, Tables, Ran;
    var a, b, c := ts[0], ts[1], ts[2];
    FirstPushed(d, msgType, EMPTY, [], a);
    FirstPushed(d, msgType, EMPTY.(tape := [a.entry]), [a.entry], b);
    FirstPushed(d, msgType, EMPTY.(tape := [a.entry, b.entry]), [a.entry, b.entry], c);
    assert [] + [a.entry] == [a.entry] && [a.entry] + [b.entry] == [a.entry, b.entry];
    assert [a.entry, b.entry] + [c.entry] == [a.entry, b.entry, c.entry];
    ThreeMore(Tables(d, msgType), EMPTY, EMPTY.(tape := [a.entry]), EMPTY.(tape := [a.entry, b.entry]), Opening(ts), ts);
  }

  lemma {:induction false} ThreeMore(dict: Dict, m: Machine, m1: Machine, m2: Machine, m3: Machine, ts: seq<Token>)
    requires |ts| >= 3 && m.Sound() && m1.Sound() && m2.Sound() && m3.Sound()
    requires Pushed(dict, m, ts[0]) == Ok(m1) && Pushed(dict, m1, ts[1]) == Ok(m2) && Pushed(dict, m2, ts[2]) == Ok(m3)
    ensures Ran(dict, m, ts) == Ran(dict, m3, ts[3..])
  {
    hide Pushed, Ran;
    RanMore(dict, m, ts[0], m1, ts[1..]);
    RanMore(dict, m1, ts[1], m2, ts[2..]);
    RanMore(dict, m2, ts[2], m3, ts[3..]);
    assert ts == [ts[0]] + ts[1..] && ts[1..] == [ts[1]] + ts[2..] && ts[2..] == [ts[2]] + ts[3..];
  }

  lemma {:induction false} LeadIsThere(d: Dictionary, buf: seq<Byte>, delimiter: Byte, s: Scan, m: Machine)
    returns (t: Token)
    requires s.pos <= |buf| && m.Sound() && s.ordinal < 3 && s.pending.None? && s.checksum.None?
    requires RunFrom(d, buf, delimiter, s, m).Ok? && RunFrom(d, buf, delimiter, s, m).value.0.checksum.Some?
    ensures Leads(d, buf, delimiter, s, t)
  {
    hide NextField, Comes, Pushed;
    FoundField(d, buf, delimiter, s);
    t := NextField(d, buf, delimiter, s).value.0;
  }

  lemma {:induction false} LeadersAreThere(d: Dictionary, buf: seq<Byte>, delimiter: Byte)
    returns (a: Token, b: Token, c: Token)
    requires Sane(d) && EMPTY.Sound() && RunFrom(d, buf, delimiter, START, EMPTY).Ok?
    requires RunFrom(d, buf, delimiter, START, EMPTY).value.0.checksum.Some?
    ensures AllLead(d, buf, delimiter, a, b, c)
  {
    hide RunFrom, Noted, Sane, Digits;
    a := LeadIsThere(d, buf, delimiter, START, EMPTY);
    LeadRuns(d, buf, delimiter, START, EMPTY, [], a);
    var s1 := Noted(d, buf, START, a);
    b := LeadIsThere(d, buf, delimiter, s1, EMPTY.(tape := [] + [a.entry]));
    LeadRuns(d, buf, delimiter, s1, EMPTY.(tape := [] + [a.entry]), [] + [a.entry], b);
    c := LeadIsThere(d, buf, delimiter, Noted(d, buf, s1, b), EMPTY.(tape := [] + [a.entry] + [b.entry]));
  }

  /** The first three fields and the others, together. */
  lemma {:induction false} Together(d: Dictionary, buf: seq<Byte>, delimiter: Byte, a: Token, b: Token, c: Token,
                                    rest: seq<Token>)
    requires Sane(d) && AllLead(d, buf, delimiter, a, b, c)
    requires var ts := [a, b, c] + rest;
             ts[1].number.Some? && End(ts[2].entry) <= |buf| && Rest(d, buf, delimiter, AtFourth(buf, ts), rest)
    ensures var ts := [a, b, c] + rest;
            && Tiled(buf, delimiter, ts, 0) && Chained(d, None, ts) && RestRules(buf, ts[3..])
            && (forall k :: 0 <= k < 3 ==> End(ts[k].entry) <= |buf| && FieldRule(d, buf, k, ts[k]))
  {
    hide Digits, Spells, RestRules;
    var ts := [a, b, c] + rest;
    ThreeNoted(d, buf, delimiter, ts);
    assert ts[1..] == [b, c] + rest && ts[1..][1..] == [c] + rest && ts[1..][1..][1..] == rest == ts[3..];
    assert Tiled(buf, delimiter, [c] + rest, c.entry.off) && Tiled(buf, delimiter, [b, c] + rest, b.entry.off);
    assert Chained(d, None, [c] + rest) && Chained(d, None, [b, c] + rest);
    assert ts[0] == a && ts[1] == b && ts[2] == c;
  }

  /** What the parser accepts is a message, and its fields are what the stack machine accepted. */
  lemma {:induction false} AcceptedIsMessage(d: Dictionary, buf: seq<Byte>, delimiter: Byte) returns (ts: seq<Token>)
    requires Sane(d) && ParsedBytes(d, buf, delimiter).Ok?
    ensures ts == FieldsFrom(d, buf, delimiter, START) && IsMessage(d, buf, delimiter, ts)
    ensures Parsed(Tables(d, MsgTypeOf(buf, ts)), ts) == ParsedBytes(d, buf, delimiter)
  {
    hide RunFrom, FieldsFrom, Comes, Noted, Sane, Ran, ClosedTo, Finished, Tiled, Chained, HasMsgType, SohChecksum, Tables;
    var (s, m) := RunFrom(d, buf, delimiter, START, EMPTY).value;
    assert Complete(buf, delimiter, s);
    var a, b, c := LeadersAreThere(d, buf, delimiter);
    ThreeRun(d, buf, delimiter, [a, b, c]);
    var rest := RunReads(d, buf, delimiter, AtFourth(buf, [a, b, c]), Opening([a, b, c]));
    ts := [a, b, c] + rest;
    assert ts[3..] == rest && ts[|ts| - 1] == rest[|rest| - 1];
    ThreeRun(d, buf, delimiter, ts);
    ThreeFound(d, buf, delimiter, ts);
    Together(d, buf, delimiter, a, b, c, rest);
  }

  lemma {:induction false} Apart(d: Dictionary, buf: seq<Byte>, delimiter: Byte, ts: seq<Token>)
    requires Sane(d) && IsMessage(d, buf, delimiter, ts)
    ensures AllLead(d, buf, delimiter, ts[0], ts[1], ts[2])
    ensures ts[1].number.Some? && Rest(d, buf, delimiter, AtFourth(buf, ts), ts[3..])
    ensures ts[2].entry.IsField()
  {
    hide Digits, RestRules;
    var a, b, c := ts[0], ts[1], ts[2];
    assert a.entry.tag == FIRST[0] && b.entry.tag == FIRST[1] && c.entry.tag == FIRST[2];
    assert ts[1..][0] == b && ts[1..][1..][0] == c && ts[1..][1..][1..] == ts[3..];
    assert Tiled(buf, delimiter, ts[1..], End(a.entry));
    assert Tiled(buf, delimiter, ts[1..][1..], End(b.entry));
    assert Tiled(buf, delimiter, ts[3..], End(c.entry));
    assert Chained(d, None, ts[1..]) && Chained(d, None, ts[1..][1..]) && Chained(d, None, ts[3..]);
  }

  lemma {:induction false} PastComplete(d: Dictionary, buf: seq<Byte>, delimiter: Byte, ts: seq<Token>)
    requires IsMessage(d, buf, delimiter, ts)
    ensures Complete(buf, delimiter, Past(buf, AtFourth(buf, ts), ts[3..]))
  {
    hide Tiled, Chained, SohChecksum, FieldRule;
    assert ts[3..][|ts[3..]| - 1] == ts[|ts| - 1];
  }

  /** And every message whose fields the stack machine accepts is accepted. */
  lemma {:induction false} MessageIsAccepted(d: Dictionary, buf: seq<Byte>, delimiter: Byte, ts: seq<Token>)
    requires Sane(d) && IsMessage(d, buf, delimiter, ts) && Parsed(Tables(d, MsgTypeOf(buf, ts)), ts).Ok?
    ensures ParsedBytes(d, buf, delimiter) == Parsed(Tables(d, MsgTypeOf(buf, ts)), ts)
  {
    hide RunFrom, Comes, Noted, Sane, Ran, ClosedTo, Finished, Tiled, Chained, SohChecksum, Tables, HasMsgType, Complete, Past;
    Apart(d, buf, delimiter, ts);
    ThreeRun(d, buf, delimiter, ts);
    var dict, m := Tables(d, MsgTypeOf(buf, ts)), Opening(ts);
    ReadsRun(d, buf, delimiter, AtFourth(buf, ts), m, ts[3..]);
    PastComplete(d, buf, delimiter, ts);
    CompleteHas(buf, delimiter, Past(buf, AtFourth(buf, ts), ts[3..]));
    assert FieldRule(d, buf, 2, ts[2]);
    HeaderKept(dict, m, ts[3..], 3);
    MsgTypeKept(m.tape, Finished(ClosedTo(Ran(dict, m, ts[3..]).value, 0).value));
  }

  lemma {:induction false} MsgTypeKept(tape: seq<Entry>, m: Machine)
    requires |tape| == 3 && tape[2].tag == 35 && tape[2].IsField() && Keeps(tape, m.tape) && m.bodyStart >= 3
    ensures HasMsgType(m)
  {
    assert m.tape[2] == tape[2];
  }

  lemma {:induction false} RestFound(d: Dictionary, buf: seq<Byte>, delimiter: Byte, s: Scan, ts: seq<Token>)
    requires s.pos <= |buf| && s.ordinal >= 3 && s.checksum.None? && Rest(d, buf, delimiter, s, ts)
    ensures FieldsFrom(d, buf, delimiter, s) == ts
    decreases |ts|
  {
    hide Rest, Comes, Noted, NextField;
    RestParts(d, buf, delimiter, s, ts);
    NotedRest(d, buf, delimiter, s, ts[0]);
    FieldIsFound(d, buf, delimiter, s, ts[0]);
    if |ts| > 1 {
      RestFound(d, buf, delimiter, Noted(d, buf, s, ts[0]), ts[1..]);
    }
  }

  /** There is only one way to read a message. */
  lemma {:induction false} ReadOneWay(d: Dictionary, buf: seq<Byte>, delimiter: Byte, ts: seq<Token>)
    requires Sane(d) && IsMessage(d, buf, delimiter, ts)
    ensures ts == FieldsFrom(d, buf, delimiter, START)
  {
    hide FieldsFrom, Comes, Noted, Sane, Rest;
    Apart(d, buf, delimiter, ts);
    ThreeFound(d, buf, delimiter, ts);
    RestFound(d, buf, delimiter, AtFourth(buf, ts), ts[3..]);
  }
}
