/**
 * Finding a message's fields in its bytes (message/parse.rs): tags, values up to a delimiter, data
 * as long as the Length before it says, and the rules about the fields that frame a message.
 */
module Lexing {
  import opened Tape
  import opened Numerals
  import opened Storage
  import opened Output
  import opened Parsing

  /** What is wrong with bytes that are not a message; the standard gives no reason for it. */
  const GARBLED := 999
  const REQUIRED_TAG_MISSING := 1
  const NO_VALUE := 4
  const INCORRECT_FORMAT := 6
  const INVALID_MSG_TYPE := 11

  /** The largest tag. */
  const MAX_TAG := 0xFFFF_FFFF

  // ---------------------------------------------------------------------
  // The dictionary
  // ---------------------------------------------------------------------

  /** A version's tables; `messages` gives the groups of each type of message it knows. */
  datatype Dictionary = Dictionary(beginString: seq<Byte>, groups: nat -> GroupDef, headerGroups: map<nat, nat>,
                                   globalGroups: map<nat, nat>, messages: map<seq<Byte>, map<nat, nat>>,
                                   headerTags: set<nat>, trailerTags: set<nat>, dataOf: map<nat, nat>)

  /** The tables for a message, once its type has come. */
  function Tables(d: Dictionary, msgType: Option<seq<Byte>>): Dict {
    var own := if msgType.Some? && msgType.value in d.messages then d.messages[msgType.value] else map[];
    Dict(d.groups, d.headerGroups, d.globalGroups + own, d.headerTags, d.trailerTags, d.dataOf)
  }

  // ---------------------------------------------------------------------
  // One field
  // ---------------------------------------------------------------------

  /** The tag that starts at `start`, read as far as `i`, and where its value starts. */
  function TagFrom(buf: seq<Byte>, start: nat, i: nat, tag: nat): (r: Result<(nat, nat)>)
    requires start <= i <= |buf|
    ensures r.Ok? ==> i < r.value.1 <= |buf|
    decreases |buf| - i
  {
    if i == |buf| then Err(GARBLED)
    else if buf[i] == EQUALS && i > start then if tag == 0 then Err(GARBLED) else Ok((tag, i + 1))
    else if buf[i] == ZERO && i == start then Err(GARBLED)
    else if IsDigit(buf[i]) then
      var next := tag * 10 + (buf[i] - ZERO);
      if next > MAX_TAG then Err(GARBLED) else TagFrom(buf, start, i + 1, next)
    else Err(GARBLED)
  }

  /** The first delimiter from an index on. */
  function Find(buf: seq<Byte>, i: nat, delimiter: Byte): (r: nat)
    requires i <= |buf|
    ensures i <= r <= |buf| && (r < |buf| ==> buf[r] == delimiter)
    ensures delimiter !in buf[i..r]
    decreases |buf| - i
  {
    if i == |buf| || buf[i] == delimiter then i
    else
      var r := Find(buf, i + 1, delimiter);
      assert buf[i..r] == [buf[i]] + buf[i + 1..r];
      r
  }

  /** The number a value is, if it is one. */
  function NumberOf(value: seq<Byte>): Option<nat> {
    match Read(value)
    case Number(n) => Some(n)
    case _ => None
  }

  /** A data field that must come next, and its length. */
  datatype Announced = Announced(tag: nat, length: nat)

  /** What kind of field it is, and where its value ends. */
  function ValueEnd(d: Dictionary, buf: seq<Byte>, delimiter: Byte, pending: Option<Announced>, tag: nat, at: nat)
    : (r: Result<(Kind, nat)>)
    requires at <= |buf|
    ensures r.Ok? ==> at <= r.value.1 < |buf| && buf[r.value.1] == delimiter
  {
    match pending
    case Some(a) =>
      if tag != a.tag then Err(INCORRECT_FORMAT)
      else if at + a.length >= |buf| || buf[at + a.length] != delimiter then Err(GARBLED)
      else Ok((Data, at + a.length))
    case None =>
      var end := Find(buf, at, delimiter);
      if end == |buf| then Err(GARBLED) else Ok((if tag in d.dataOf then DataLen else Field, end))
  }

  /** What a field announces: a Length, the data it measures. */
  function Announces(d: Dictionary, kind: Kind, tag: nat, value: seq<Byte>): Result<Option<Announced>> {
    if kind.DataLen? && tag in d.dataOf then
      match NumberOf(value)
      case None => Err(INCORRECT_FORMAT)
      case Some(n) => Ok(Some(Announced(d.dataOf[tag], n)))
    else Ok(None)
  }

  // ---------------------------------------------------------------------
  // The fields that frame a message
  // ---------------------------------------------------------------------

  /** A place in the bytes, and what has been seen so far. */
  datatype Scan = Scan(pos: nat, pending: Option<Announced>, ordinal: nat, checksum: Option<(nat, nat)>,
                       bodyLength: Option<(nat, nat)>, msgType: Option<seq<Byte>>)

  const START := Scan(0, None, 0, None, None, None)

  /** The first three fields. */
  const FIRST: seq<nat> := [8, 9, 35]

  predicate Alphanumeric(c: Byte) {
    IsDigit(c) || 65 <= c <= 90 || 97 <= c <= 122
  }

  predicate AllAlphanumeric(s: seq<Byte>) {
    forall i :: 0 <= i < |s| ==> Alphanumeric(s[i])
  }

  /** Three digits, as a number. */
  function ThreeOf(value: seq<Byte>): Option<nat> {
    if |value| == 3 && IsDigit(value[0]) && IsDigit(value[1]) && IsDigit(value[2]) then
      var v := (value[0] - ZERO) * 100 + (value[1] - ZERO) * 10 + (value[2] - ZERO);
      if v > 255 then None else Some(v)
    else None
  }

  /** BeginString, BodyLength and MsgType come first, in that order, and nowhere else; CheckSum ends the message. */
  function FramingRules(d: Dictionary, s: Scan, tag: nat, value: seq<Byte>): (r: Result<Scan>)
    ensures r.Ok? ==> r.value.pos == s.pos && r.value.ordinal == s.ordinal + 1
  {
    var next := s.(ordinal := s.ordinal + 1);
    if s.ordinal < 3 && tag != FIRST[s.ordinal] then Err(GARBLED)
    else if s.ordinal >= 3 && tag in FIRST then Err(OUT_OF_REQUIRED_ORDER)
    else if tag == 8 then if value == d.beginString then Ok(next) else Err(GARBLED)
    else if tag == 9 then
      match NumberOf(value)
      case None => Err(GARBLED)
      case Some(n) => Ok(next.(bodyLength := Some((n, s.pos + 2 + |value| + 1))))
    else if tag == 35 then
      if AllAlphanumeric(value) then Ok(next.(msgType := Some(value))) else Err(INVALID_MSG_TYPE)
    else if tag == 10 then
      match ThreeOf(value)
      case None => Err(GARBLED)
      case Some(v) => Ok(next.(checksum := Some((s.pos, v))))
    else Ok(next)
  }

  /** One field off the bytes. */
  function NextField(d: Dictionary, buf: seq<Byte>, delimiter: Byte, s: Scan): (r: Result<(Token, Scan)>)
    requires s.pos < |buf|
    ensures r.Ok? ==> s.pos < r.value.1.pos <= |buf|
  {
    match TagFrom(buf, s.pos, s.pos, 0)
    case Err(e) => Err(e)
    case Ok((tag, at)) =>
      match ValueEnd(d, buf, delimiter, s.pending, tag, at)
      case Err(e) => Err(e)
      case Ok((kind, end)) =>
        if end == at then Err(NO_VALUE)
        else
          match Announces(d, kind, tag, buf[at..end])
          case Err(e) => Err(e)
          case Ok(pending) =>
            match FramingRules(d, s, tag, buf[at..end])
            case Err(e) => Err(e)
            case Ok(s') =>
              var entry := Entry(tag, kind, 0, Wire, at - s.pos, s.pos, end - at);
              Ok((Token(entry, NumberOf(buf[at..end])), s'.(pos := end + 1, pending := pending)))
  }

  // ---------------------------------------------------------------------
  // The whole message
  // ---------------------------------------------------------------------

  /** Fields are read and placed one after the other, up to CheckSum. */
  function RunFrom(d: Dictionary, buf: seq<Byte>, delimiter: Byte, s: Scan, m: Machine): (r: Result<(Scan, Machine)>)
    requires s.pos <= |buf| && m.Sound()
    ensures r.Ok? ==> r.value.0.pos <= |buf| && r.value.1.Sound()
    decreases |buf| - s.pos
  {
    if s.pos == |buf| || s.checksum.Some? then Ok((s, m))
    else
      match NextField(d, buf, delimiter, s)
      case Err(e) => Err(e)
      case Ok((t, s')) =>
        match Pushed(Tables(d, s'.msgType), m, t)
        case Err(e) => Err(e)
        case Ok(m') => RunFrom(d, buf, delimiter, s', m')
  }

  /** The fields that are read on the way. */
  function FieldsFrom(d: Dictionary, buf: seq<Byte>, delimiter: Byte, s: Scan): seq<Token>
    requires s.pos <= |buf|
    decreases |buf| - s.pos
  {
    if s.pos == |buf| || s.checksum.Some? then []
    else
      match NextField(d, buf, delimiter, s)
      case Err(_) => []
      case Ok((t, s')) => [t] + FieldsFrom(d, buf, delimiter, s')
  }

  /** Nothing is missing, nothing is left, and BodyLength and CheckSum are right. */
  predicate Complete(buf: seq<Byte>, delimiter: Byte, s: Scan) {
    && s.pos == |buf| && s.pending.None? && s.checksum.Some?
    && var (at, sum) := s.checksum.value;
       && at <= |buf| && s.ordinal > 0
       && (s.bodyLength.Some? ==> s.bodyLength.value.0 == at - s.bodyLength.value.1)
       && SohChecksum(buf[..at], s.ordinal - 1, delimiter) == sum
  }

  /** MsgType is among the header's fields. */
  predicate HasMsgType(m: Machine) {
    exists k :: 0 <= k < m.bodyStart && k < |m.tape| && m.tape[k].tag == 35 && m.tape[k].IsField()
  }

  /** What comes of it once the fields have ended. */
  function Ended(d: Dictionary, buf: seq<Byte>, delimiter: Byte, s: Scan, m: Machine): Result<Machine>
    requires m.Sound()
  {
    if s.pending.Some? || s.pos != |buf| then Err(GARBLED)
    else
      match ClosedTo(m, 0)
      case Err(e) => Err(e)
      case Ok(c) =>
        if !Complete(buf, delimiter, s) then Err(GARBLED)
        else if (s.msgType.None? || s.msgType.value !in d.messages) && !HasMsgType(Finished(c)) then Err(REQUIRED_TAG_MISSING)
        else Ok(Finished(c))
  }

  /** Parsing a message from its bytes. */
  function ParsedBytes(d: Dictionary, buf: seq<Byte>, delimiter: Byte): Result<Machine> {
    match RunFrom(d, buf, delimiter, START, EMPTY)
    case Err(e) => Err(e)
    case Ok((s, m)) => Ended(d, buf, delimiter, s, m)
  }

  // ---------------------------------------------------------------------
  // Tags
  // ---------------------------------------------------------------------

  /** What was read of a tag so far is how it would be written. */
  predicate TagSoFar(buf: seq<Byte>, start: nat, i: nat, tag: nat)
    requires start <= i <= |buf|
  {
    if i == start then tag == 0 else tag > 0 && buf[start..i] == Digits(tag)
  }

  lemma {:induction false} TagIsWritten(buf: seq<Byte>, start: nat, i: nat, tag: nat)
    requires start <= i <= |buf| && TagSoFar(buf, start, i, tag) && tag <= MAX_TAG && TagFrom(buf, start, i, tag).Ok?
    ensures var (t, at) := TagFrom(buf, start, i, tag).value;
            0 < t <= MAX_TAG && buf[start..at] == Digits(t) + [EQUALS]
    decreases |buf| - i
  {
    if !(buf[i] == EQUALS && i > start) {
      var next := tag * 10 + (buf[i] - ZERO);
      assert buf[start..i + 1] == buf[start..i] + [buf[i]];
      TagIsWritten(buf, start, i + 1, next);
    } else {
      assert buf[start..i + 1] == buf[start..i] + [EQUALS];
    }
  }

  /** One digit of a tag. */
  lemma {:induction false} TagDigit(buf: seq<Byte>, start: nat, i: nat, tag: nat, digit: nat)
    requires start <= i < |buf| && digit < 10 && buf[i] == ZERO + digit && (i == start ==> digit > 0)
    requires tag * 10 + digit <= MAX_TAG
    ensures TagFrom(buf, start, i, tag) == TagFrom(buf, start, i + 1, tag * 10 + digit)
  {
  }

  /** The digits before the last, and the last. */
  lemma {:induction false} LastDigit(buf: seq<Byte>, start: nat, t: nat)
    requires t >= 10 && start + |Digits(t)| <= |buf| && buf[start..start + |Digits(t)|] == Digits(t)
    ensures var k := |Digits(t)|;
            && |Digits(t / 10)| == k - 1 && buf[start..start + k - 1] == Digits(t / 10)
            && buf[start + k - 1] == ZERO + t % 10
  {
    var k := |Digits(t)|;
    assert Digits(t) == Digits(t / 10) + [ZERO + t % 10];
    assert buf[start..start + k - 1] == buf[start..start + k][..k - 1];
    assert buf[start..start + k][k - 1] == buf[start + k - 1];
  }

  /** A tag as it is written is read up to its end. */
  lemma {:induction false} TagReadsOn(buf: seq<Byte>, start: nat, t: nat)
    requires 0 < t <= MAX_TAG && start + |Digits(t)| < |buf| && buf[start..start + |Digits(t)|] == Digits(t)
    ensures TagFrom(buf, start, start, 0) == TagFrom(buf, start, start + |Digits(t)|, t)
    decreases t
  {
    hide TagFrom;
    if t >= 10 {
      LastDigit(buf, start, t);
      hide Digits;
      var k := |Digits(t)|;
      TagReadsOn(buf, start, t / 10);
      assert t / 10 * 10 + t % 10 == t;
      TagDigit(buf, start, start + k - 1, t / 10, t % 10);
    } else {
      assert Digits(t) == [ZERO + t];
      assert buf[start..start + 1][0] == buf[start];
      TagDigit(buf, start, start, 0, t);
    }
  }

  lemma {:induction false} TagReads(buf: seq<Byte>, start: nat, t: nat)
    requires 0 < t <= MAX_TAG && start + |Digits(t)| < |buf|
    requires buf[start..start + |Digits(t)| + 1] == Digits(t) + [EQUALS]
    ensures TagFrom(buf, start, start, 0) == Ok((t, start + |Digits(t)| + 1))
  {
    var k := |Digits(t)|;
    var s := buf[start..start + k + 1];
    assert s[..k] == buf[start..start + k] && s[k] == buf[start + k];
    TagReadsOn(buf, start, t);
  }
}
