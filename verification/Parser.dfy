/**
 * The parser (message/parse.rs) as it runs: one loop over the bytes that reads fields and changes
 * the tape, the stack of open groups and the region in place. Each method does what its function
 * on values says.
 */
module Parser {
  import opened Tape
  import opened Groups
  import opened Parsing
  import opened Document
  import opened Legible
  import opened Lexing
  import opened Lossless
  import opened MessageTrip
  import opened Messages
  import opened Numerals
  import opened RoundTrip
  import opened Shape
  import opened Storage

  /** The tag at a position, and where its value starts. */
  method ParseTag(buf: seq<Byte>, pos: nat) returns (r: Result<(nat, nat)>)
    requires pos <= |buf|
    ensures r == TagFrom(buf, pos, pos, 0)
  {
    var tag: nat, i: nat := 0, pos;
    while i < |buf|
      invariant pos <= i <= |buf| && TagFrom(buf, pos, i, tag) == TagFrom(buf, pos, pos, 0)
    {
      var c := buf[i];
      if c == EQUALS && i > pos {
        return if tag == 0 then Err(GARBLED) else Ok((tag, i + 1));
      }
      if !IsDigit(c) || (c == ZERO && i == pos) || tag * 10 + (c - ZERO) > MAX_TAG {
        return Err(GARBLED);
      }
      tag := tag * 10 + (c - ZERO);
      i := i + 1;
    }
    return Err(GARBLED);
  }

  class Parser {
    const d: Dictionary
    var ordinal: nat
    var checksum: Option<(nat, nat)>
    var bodyLength: Option<(nat, nat)>
    var msgType: Option<seq<Byte>>
    var terminators: seq<nat>
    var tape: seq<Entry>
    var stack: seq<Frame>
    var region: Region
    var bodyStart: nat
    var trailerStart: nat

    function State(): Machine
      reads this
    {
      Machine(tape, stack, region, bodyStart, trailerStart)
    }

    /** The tables for the message, so far as its type is known. */
    function Rules(): Dict
      reads `msgType
    {
      Tables(d, msgType)
    }

    function At(pos: nat, pending: Option<Announced>): Scan
      reads this
    {
      Scan(pos, pending, ordinal, checksum, bodyLength, msgType)
    }

    /** The machine got here, or stopped for this reason. */
    ghost predicate Reached(r: Result<Machine>, error: Option<nat>)
      reads this
    {
      match r
      case Ok(m) => error == None && State() == m
      case Err(e) => error == Some(e)
    }

    constructor (d: Dictionary)
      ensures this.d == d && State() == EMPTY && At(0, None) == START && terminators == []
    {
      this.d := d;
      ordinal, checksum, bodyLength, msgType, terminators := 0, None, None, None, [];
      tape, stack, region, bodyStart, trailerStart := [], [], Header, 0, 0;
    }

    method CloseInstance()
      requires State().Sound()
      modifies `tape
      ensures State() == InstanceClosed(old(State()))
    {
      if |stack| > 0 && stack[|stack| - 1].instance.Some? {
        var i := stack[|stack| - 1].instance.value;
        tape := tape[i := tape[i].(len := |tape| - i)];
      }
    }

    method CloseGroup() returns (error: Option<nat>)
      requires State().Sound() && stack != []
      modifies `tape, `stack
      ensures Reached(GroupClosed(old(State())), error)
      ensures |stack| == |old(stack)| - 1
    {
      CloseInstance();
      var frame := stack[|stack| - 1];
      stack := stack[..|stack| - 1];
      tape := tape[frame.entry := tape[frame.entry].(len := |tape| - frame.entry, off := frame.count)];
      return if frame.count != frame.declared then Some(INCORRECT_COUNT) else None;
    }

    method StartInstance() returns (error: Option<nat>)
      requires State().Sound() && stack != []
      modifies `tape, `stack
      ensures Reached(InstanceStarted(old(State())), error)
    {
      CloseInstance();
      var frame := stack[|stack| - 1];
      if frame.count == frame.declared {
        return Some(INCORRECT_COUNT);
      }
      frame := frame.(count := frame.count + 1, instance := Some(|tape|));
      stack := stack[..|stack| - 1] + [frame];
      tape := tape + [INSTANCE.(depth := frame.depth + 1)];
      return None;
    }

    /** `Settled`, as the loop over the stack that it is. */
    method Settle(tag: nat) returns (error: Option<nat>)
      requires State().Sound()
      modifies `tape, `stack
      ensures Reached(Settled(Rules(), old(State()), tag), error)
    {
      hide GroupClosed, InstanceStarted;
      while stack != []
        invariant State().Sound() && Settled(Rules(), State(), tag) == Settled(Rules(), old(State()), tag)
        decreases |stack|
      {
        var frame := stack[|stack| - 1];
        var def := Rules().groups(frame.group);
        if tag == def.delimiter {
          error := StartInstance();
          return;
        }
        if tag in def.members {
          return if frame.instance.None? then Some(GROUP_FIELDS_OUT_OF_ORDER) else None;
        }
        error := CloseGroup();
        if error.Some? {
          return;
        }
      }
      return None;
    }

    method PushGap()
      modifies `tape
      ensures tape == old(tape) + GapSlots()
    {
      tape := tape + GapSlots();
    }

    /** `RegionEntered`, on the fields. */
    method EnterRegion(tag: nat) returns (error: Option<nat>)
      requires stack == []
      modifies `tape, `region, `bodyStart, `trailerStart
      ensures Reached(RegionEntered(Rules(), old(State()), tag), error)
    {
      hide GapSlots;
      var header, trailer := tag in Rules().headerTags, tag in Rules().trailerTags;
      error := None;
      match region
      case Header =>
        if !header {
          PushGap();
          bodyStart := |tape|;
          region := Body;
          if trailer {
            trailerStart := bodyStart;
            region := Trailer;
          }
        }
      case Body =>
        if header {
          error := Some(OUT_OF_REQUIRED_ORDER);
        } else if trailer {
          trailerStart := |tape|;
          region := Trailer;
        }
      case Trailer =>
        if !trailer {
          error := Some(OUT_OF_REQUIRED_ORDER);
        }
    }

    /** `Placed`, on the fields. */
    method Place(t: Token) returns (error: Option<nat>)
      requires State().Sound()
      modifies `tape, `stack
      ensures Reached(Placed(Rules(), old(State()), t), error)
    {
      var tag, depth := t.entry.tag, State().Depth();
      var group := if t.entry.kind.Field? then Opened(Rules(), State().Context(), tag) else None;
      if group.None? {
        tape := tape + [t.entry.(depth := depth)];
        return None;
      }
      if t.number.None? {
        return Some(INCORRECT_COUNT);
      }
      var declared, idx := t.number.value, |tape|;
      tape := tape + [GroupEntry(tag).(depth := depth)];
      if declared > 0 {
        stack := stack + [Frame(group.value, idx, None, declared, 0, depth)];
      }
      return None;
    }

    /** `Pushed`: settle, enter the region, place. */
    method Push(t: Token) returns (error: Option<nat>)
      requires State().Sound()
      modifies `tape, `stack, `region, `bodyStart, `trailerStart
      ensures Reached(Pushed(Rules(), old(State()), t), error)
    {
      hide Settled, RegionEntered, Placed;
      error := Settle(t.entry.tag);
      if error.Some? {
        return;
      }
      if stack == [] {
        error := EnterRegion(t.entry.tag);
        if error.Some? {
          return;
        }
        assert State().Sound();
      }
      error := Place(t);
    }

    method FinishRegions()
      modifies `tape, `bodyStart, `trailerStart
      ensures State() == Finished(old(State()))
    {
      hide GapSlots;
      var len := |tape|;
      match region
      case Header =>
        PushGap();
        bodyStart := |tape|;
        trailerStart := bodyStart;
      case Body =>
        trailerStart := len;
      case Trailer =>
    }

    /** Close every group that is still open. */
    method CloseAll() returns (error: Option<nat>)
      requires State().Sound()
      modifies `tape, `stack
      ensures Reached(ClosedTo(old(State()), 0), error)
    {
      hide GroupClosed;
      while stack != []
        invariant State().Sound() && ClosedTo(State(), 0) == ClosedTo(old(State()), 0)
        decreases |stack|
      {
        error := CloseGroup();
        if error.Some? {
          return;
        }
      }
      return None;
    }

    /** `FramingRules`, on the fields. */
    method CheckFraming(pos: nat, ghost pending: Option<Announced>, tag: nat, value: seq<Byte>) returns (error: Option<nat>)
      modifies `ordinal, `checksum, `bodyLength, `msgType
      ensures match FramingRules(d, old(At(pos, pending)), tag, value)
              case Ok(s) => error == None && At(pos, pending) == s
              case Err(e) => error == Some(e)
    {
      var place := ordinal;
      ordinal := ordinal + 1;
      if place < 3 && tag != FIRST[place] {
        return Some(GARBLED);
      }
      if place >= 3 && tag in FIRST {
        return Some(OUT_OF_REQUIRED_ORDER);
      }
      if tag == 8 && value != d.beginString {
        return Some(GARBLED);
      }
      if tag == 9 {
        var declared := ParseUint(value);
        if !declared.Number? {
          return Some(GARBLED);
        }
        bodyLength := Some((declared.value, pos + 2 + |value| + 1));
      }
      if tag == 35 {
        if !AllAlphanumeric(value) {
          return Some(INVALID_MSG_TYPE);
        }
        msgType := Some(value);
      }
      if tag == 10 {
        var sum := ThreeOf(value);
        if sum.None? {
          return Some(GARBLED);
        }
        checksum := Some((pos, sum.value));
      }
      return None;
    }

    /** One field off the bytes: `NextField`, and what it announces. */
    method Field(buf: seq<Byte>, delimiter: Byte, pos: nat, pending: Option<Announced>)
      returns (error: Option<nat>, t: Token, end: nat, announced: Option<Announced>)
      requires pos < |buf|
      modifies `ordinal, `checksum, `bodyLength, `msgType
      ensures match NextField(d, buf, delimiter, old(At(pos, pending)))
              case Err(e) => error == Some(e)
              case Ok((t', s')) => error == None && t == t' && end == End(t.entry) - 1 && At(end + 1, announced) == s'
    {
      hide FramingRules;
      t, end, announced := CountToken(0, 0), 0, None;
      var tagged := ParseTag(buf, pos);
      if tagged.Err? {
        return Some(tagged.reason), t, end, announced;
      }
      var (tag, at) := tagged.value;
      var valued := ValueEnd(d, buf, delimiter, pending, tag, at);
      if valued.Err? {
        return Some(valued.reason), t, end, announced;
      }
      var kind := valued.value.0;
      end := valued.value.1;
      if end == at {
        return Some(NO_VALUE), t, end, announced;
      }
      var value := buf[at..end];
      var number := ParseUint(value);
      if kind.DataLen? && tag in d.dataOf {
        if !number.Number? {
          return Some(INCORRECT_FORMAT), t, end, announced;
        }
        announced := Some(Announced(d.dataOf[tag], number.value));
      }
      t := Token(Entry(tag, kind, 0, Wire, at - pos, pos, end - at), if number.Number? then Some(number.value) else None);
      error := CheckFraming(pos, pending, tag, value);
    }

    /** The loop over the bytes has come this far. */
    ghost predicate Going(buf: seq<Byte>, delimiter: Byte, pos: nat, pending: Option<Announced>)
      reads this
    {
      && pos <= |buf| && State().Sound()
      && RunFrom(d, buf, delimiter, At(pos, pending), State()) == RunFrom(d, buf, delimiter, START, EMPTY)
      && terminators + Terminators(FieldsFrom(d, buf, delimiter, At(pos, pending)))
         == Terminators(FieldsFrom(d, buf, delimiter, START))
    }

    /** Read and place one field after the other, up to CheckSum. */
    method ReadFields(buf: seq<Byte>, delimiter: Byte)
      returns (error: Option<nat>, pos: nat, pending: Option<Announced>)
      requires State() == EMPTY && At(0, None) == START && terminators == []
      modifies this
      ensures match RunFrom(d, buf, delimiter, START, EMPTY)
              case Err(e) => error == Some(e)
              case Ok((s, m)) =>
                && error == None && At(pos, pending) == s && State() == m
                && terminators == Terminators(FieldsFrom(d, buf, delimiter, START))
    {
      hide NextField, Pushed, Tables, RunFrom, FieldsFrom, Terminators;
      pos, pending := 0, None;
      assert [] + Terminators(FieldsFrom(d, buf, delimiter, START)) == Terminators(FieldsFrom(d, buf, delimiter, START));
      while pos < |buf| && checksum.None?
        invariant Going(buf, delimiter, pos, pending)
        decreases |buf| - pos
      {
        ghost var s, m := At(pos, pending), State();
        var t, end, announced;
        error, t, end, announced := Field(buf, delimiter, pos, pending);
        RunStep(d, buf, delimiter, s, m);
        if error.Some? {
          return;
        }
        error := Push(t);
        if error.Some? {
          return;
        }
        terminators := terminators + [end];
        TerminatorsMore(t, FieldsFrom(d, buf, delimiter, At(end + 1, announced)));
        pos, pending := end + 1, announced;
      }
      RunOver(d, buf, delimiter, At(pos, pending), State());
      error := None;
    }

    /** Parse a message from its bytes. */
    method Run(buf: seq<Byte>, delimiter: Byte) returns (error: Option<nat>)
      requires State() == EMPTY && At(0, None) == START && terminators == []
      modifies this
      ensures Reached(ParsedBytes(d, buf, delimiter), error)
      ensures error.None? ==> terminators == Terminators(FieldsFrom(d, buf, delimiter, START))
    {
      hide RunFrom, FieldsFrom, Terminators, ClosedTo, Finished, Complete, HasMsgType;
      var pos, pending;
      error, pos, pending := ReadFields(buf, delimiter);
      if error.Some? {
        return;
      }
      if pending.Some? || pos != |buf| {
        return Some(GARBLED);
      }
      error := CloseAll();
      if error.Some? {
        return;
      }
      FinishRegions();
      if !Complete(buf, delimiter, At(pos, pending)) {
        return Some(GARBLED);
      }
      if (msgType.None? || msgType.value !in d.messages) && !HasMsgType(State()) {
        return Some(REQUIRED_TAG_MISSING);
      }
    }
  }

  /** One round of the loop. */
  lemma {:induction false} RunStep(d: Dictionary, buf: seq<Byte>, delimiter: Byte, s: Scan, m: Machine)
    requires s.pos < |buf| && s.checksum.None? && m.Sound()
    ensures NextField(d, buf, delimiter, s).Err? ==>
              RunFrom(d, buf, delimiter, s, m) == Err(NextField(d, buf, delimiter, s).reason)
    ensures NextField(d, buf, delimiter, s).Ok? ==>
              var (t, s') := NextField(d, buf, delimiter, s).value;
              var pushed := Pushed(Tables(d, s'.msgType), m, t);
              && FieldsFrom(d, buf, delimiter, s) == [t] + FieldsFrom(d, buf, delimiter, s')
              && RunFrom(d, buf, delimiter, s, m)
                 == if pushed.Err? then Err(pushed.reason) else RunFrom(d, buf, delimiter, s', pushed.value)
  {
    hide NextField, Pushed;
  }

  lemma {:induction false} RunOver(d: Dictionary, buf: seq<Byte>, delimiter: Byte, s: Scan, m: Machine)
    requires s.pos <= |buf| && (s.pos == |buf| || s.checksum.Some?) && m.Sound()
    ensures RunFrom(d, buf, delimiter, s, m) == Ok((s, m)) && Terminators(FieldsFrom(d, buf, delimiter, s)) == []
  {
  }

  lemma {:induction false} TerminatorsMore(t: Token, ts: seq<Token>)
    ensures Terminators([t] + ts) == [End(t.entry) - 1] + Terminators(ts)
  {
  }

  /** Where fields end. */
  function Terminators(ts: seq<Token>): seq<nat> {
    seq(|ts|, i requires 0 <= i < |ts| => End(ts[i].entry) - 1)
  }

  // ---------------------------------------------------------------------
  // Messages
  // ---------------------------------------------------------------------

  /** Fields that follow their Lengths, as pairs. */
  lemma {:induction false} ChainedPairs(d: Dictionary, dict: Dict, pending: Option<Announced>, ts: seq<Token>)
    requires Chained(d, pending, ts) && dict.dataOf == d.dataOf
    ensures forall i :: 0 <= i < |ts| && ts[i].entry.kind.DataLen? ==>
              && i + 1 < |ts| && ts[i + 1].entry.kind.Data?
              && ts[i].entry.tag in dict.dataOf && ts[i + 1].entry.tag == dict.dataOf[ts[i].entry.tag]
    ensures forall i :: 1 <= i < |ts| && ts[i].entry.kind.Data? ==> ts[i - 1].entry.kind.DataLen?
    ensures if pending.Some? then ts != [] && ts[0].entry.kind.Data? && ts[0].entry.tag == pending.value.tag
            else ts != [] ==> !ts[0].entry.kind.Data?
    decreases |ts|
  {
    if ts != [] {
      var rest := ts[1..];
      ChainedPairs(d, dict, Announcing(d, ts[0]), rest);
      assert forall i :: 0 <= i < |rest| ==> rest[i] == ts[i + 1];
      forall i | 0 <= i < |ts| && ts[i].entry.kind.DataLen?
        ensures i + 1 < |ts| && ts[i + 1].entry.kind.Data?
        ensures ts[i].entry.tag in dict.dataOf && ts[i + 1].entry.tag == dict.dataOf[ts[i].entry.tag]
      {
        if i > 0 {
          assert rest[i - 1].entry.kind.DataLen?;
        }
      }
      forall i | 1 <= i < |ts| && ts[i].entry.kind.Data?
        ensures ts[i - 1].entry.kind.DataLen?
      {
        assert rest[i - 1].entry.kind.Data?;
      }
    }
  }

  lemma {:induction false} TiledFields(buf: seq<Byte>, delimiter: Byte, ts: seq<Token>, from: nat)
    requires Tiled(buf, delimiter, ts, from)
    ensures AllFieldTokens(ts)
    decreases |ts|
  {
    hide Digits;
    if ts != [] {
      TiledFields(buf, delimiter, ts[1..], End(ts[0].entry));
      assert forall i :: 1 <= i < |ts| ==> ts[i] == ts[1..][i - 1];
    }
  }

  /** A message's fields may be laid out. */
  lemma {:induction false} MessageFields(d: Dictionary, buf: seq<Byte>, delimiter: Byte, ts: seq<Token>, dict: Dict)
    requires IsMessage(d, buf, delimiter, ts) && dict.dataOf == d.dataOf
    ensures AllFieldTokens(ts) && WellPaired(dict, ts) && Tiled(buf, delimiter, ts, 0)
  {
    hide Tiled, Chained;
    TiledFields(buf, delimiter, ts, 0);
    ChainedPairs(d, dict, None, ts);
  }

  lemma {:induction false} PairsStay(d: Dictionary, a: Option<seq<Byte>>, b: Option<seq<Byte>>)
    requires PairsTogether(Tables(d, a))
    ensures PairsTogether(Tables(d, b))
  {
    var x, y := Tables(d, a), Tables(d, b);
    forall l | l in y.dataOf
      ensures var r := y.dataOf[l];
              && (l in y.headerTags <==> r in y.headerTags)
              && (l in y.trailerTags <==> r in y.trailerTags)
              && forall g :: !Skips(y, g, l) ==> r != y.groups(g).delimiter && r in y.groups(g).members
    {
      assert l in x.dataOf;
      assert forall g :: Skips(y, g, l) == Skips(x, g, l);
    }
  }

  /** SOH put back where fields end. */
  method Rewire(buf: seq<Byte>, terminators: seq<nat>, ghost ts: seq<Token>) returns (wire: seq<Byte>)
    requires terminators == Terminators(ts) && forall i :: 0 <= i < |ts| ==> End(ts[i].entry) <= |buf|
    ensures wire == Rewired(buf, ts)
  {
    wire := buf;
    assert ts[0..] == ts;
    for i := 0 to |terminators|
      invariant |wire| == |buf| && Rewired(wire, ts[i..]) == Rewired(buf, ts)
    {
      assert ts[i..][0] == ts[i] && ts[i..][1..] == ts[i + 1..];
      wire := wire[terminators[i] := SOH];
    }
  }

  lemma {:induction false} RewiredAlready(buf: seq<Byte>, ts: seq<Token>, from: nat)
    requires Tiled(buf, SOH, ts, from)
    ensures forall i :: 0 <= i < |ts| ==> End(ts[i].entry) <= |buf|
    ensures Rewired(buf, ts) == buf
    decreases |ts|
  {
    TiledWithin(buf, SOH, ts, from);
    if ts != [] {
      RewiredAlready(buf, ts[1..], End(ts[0].entry));
      assert buf[End(ts[0].entry) - 1 := SOH] == buf;
    }
  }

  /**
   * Parse a message. It is refused with the parser's reason, or what comes of it is well formed, so
   * every edit may be made of it, and holds the fields that tile the bytes, in order.
   */
  method ParseMessage(d: Dictionary, bytes: seq<Byte>, delimiter: Byte) returns (msg: Message?, error: Option<nat>)
    requires Sane(d) && PairsTogether(Tables(d, None))
    ensures error.Some? ==> ParsedBytes(d, bytes, delimiter) == Err(error.value)
    ensures error.None? ==>
              var ts := FieldsFrom(d, bytes, delimiter, START);
              && IsMessage(d, bytes, delimiter, ts) && ParsedBytes(d, bytes, delimiter).Ok?
              && (forall i :: 0 <= i < |ts| ==> End(ts[i].entry) <= |bytes|)
              && msg != null && fresh(msg) && msg.Valid() && WellFormed(msg.doc) && msg.clean
              && msg.Segs() == Segments(Rewired(bytes, ts), [])
              && (var m := ParsedBytes(d, bytes, delimiter).value; msg.Im() == Image(m.tape, m.bodyStart, m.trailerStart))
              && AllAlike(ts, Tokens(Fields(msg.doc.header)) + Tokens(msg.doc.body) + Tokens(msg.doc.trailer))
  {
    hide *;
    msg := null;
    var parser := new Parser(d);
    error := parser.Run(bytes, delimiter);
    ghost var m := parser.State();
    ParserReached(parser, ParsedBytes(d, bytes, delimiter), error);
    if error.None? {
      ghost var ts := AcceptedIsMessage(d, bytes, delimiter);
      MessageParts(d, bytes, delimiter, ts);
      ghost var msgType := MsgTypeOf(bytes, ts);
      ghost var dict := Tables(d, msgType);
      TablesData(d, msgType);
      MessageFields(d, bytes, delimiter, ts, dict);
      TiledWithin(bytes, delimiter, ts, 0);
      PairsStay(d, None, msgType);
      ghost var doc := ParsedIsWellFormed(dict, ts, m);
      WellFormedTidy(doc);
      StateIs(parser);
      var wire := bytes;
      if delimiter == SOH {
        RewiredAlready(bytes, ts, 0);
      } else {
        wire := Rewire(bytes, parser.terminators, ts);
      }
      msg := new Message.Built(wire, Image(parser.tape, parser.bodyStart, parser.trailerStart), true, doc);
    }
  }

  lemma {:induction false} MessageParts(d: Dictionary, buf: seq<Byte>, delimiter: Byte, ts: seq<Token>)
    requires IsMessage(d, buf, delimiter, ts)
    ensures |ts| > 3 && End(ts[2].entry) <= |buf|
  {
  }

  lemma {:induction false} TablesData(d: Dictionary, msgType: Option<seq<Byte>>)
    ensures Tables(d, msgType).dataOf == d.dataOf
  {
  }

  lemma {:induction false} StateIs(parser: Parser)
    ensures parser.State() == Machine(parser.tape, parser.stack, parser.region, parser.bodyStart, parser.trailerStart)
  {
  }

  lemma {:induction false} ParserReached(parser: Parser, r: Result<Machine>, error: Option<nat>)
    requires parser.Reached(r, error)
    ensures error.Some? ==> r == Err(error.value)
    ensures error.None? ==> r == Ok(parser.State())
  {
  }
}
