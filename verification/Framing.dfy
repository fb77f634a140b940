/**
 * Messages off a stream (codec.rs): a frame ends where BodyLength says, a decoder keeps to the
 * version of its first message, and how the bytes are cut into reads does not show.
 */
module Framing {
  import opened Tape
  import opened Numerals
  import opened Storage
  import opened Output
  import opened Parsing
  import opened Lexing

  // ---------------------------------------------------------------------
  // One frame
  // ---------------------------------------------------------------------

  datatype Fault = TooLong | NoBeginString | NoBodyLength | BadBodyLength | UnknownVersion | Unparsable(reason: nat)

  /** A frame of `len` bytes, its BeginString ending at `begin`; or not enough bytes to tell; or not a frame. */
  datatype Found = Extent(begin: nat, len: nat) | Partial | Bad(fault: Fault)

  const PLUS: Byte := 43

  /** CheckSum with its delimiter. */
  const CHECKSUM_LEN := 7

  predicate StartsWith(s: seq<Byte>, digit: Byte) {
    |s| >= 2 && s[0] == digit && s[1] == EQUALS
  }

  /** A length, as the language's own number parser takes it: with or without a plus sign. */
  function Length(s: seq<Byte>): Option<nat> {
    NumberOf(if s != [] && s[0] == PLUS then s[1..] else s)
  }

  /** Not enough has come; more than a frame may have is too much. */
  function Incomplete(data: seq<Byte>, max: nat): Found {
    if |data| > max then Bad(TooLong) else Partial
  }

  /** How long a frame is whose second field, BodyLength, lies between two delimiters. */
  function Sized(data: seq<Byte>, begin: nat, end: nat, max: nat): Found
    requires begin < end < |data|
  {
    if !StartsWith(data[begin + 1..end], 57) then Bad(NoBodyLength)
    else
      match Length(data[begin + 3..end])
      case None => Bad(BadBodyLength)
      case Some(n) =>
        var len := end + 1 + n + CHECKSUM_LEN;
        if len <= max then Extent(begin, len) else Bad(TooLong)
  }

  /** Where the first frame in some bytes is. */
  function FrameOf(data: seq<Byte>, delimiter: Byte, max: nat): Found {
    var begin := Find(data, 0, delimiter);
    if begin == |data| then Incomplete(data, max)
    else if !StartsWith(data[..begin], 56) then Bad(NoBeginString)
    else
      var end := Find(data, begin + 1, delimiter);
      if end == |data| then Incomplete(data, max) else Sized(data, begin, end, max)
  }

  // ---------------------------------------------------------------------
  // The decoder
  // ---------------------------------------------------------------------

  /** The versions a decoder knows, by BeginString, and what it was set up with. */
  datatype Codec = Codec(known: map<seq<Byte>, Dictionary>, delimiter: Byte, max: nat)

  /** The version that was latched, and the bytes that have come. */
  datatype Stream = Stream(dict: Option<Dictionary>, data: seq<Byte>)

  /** A message, and the bytes it was parsed from. */
  datatype Decoded = Decoded(frame: seq<Byte>, machine: Machine)

  datatype Outcome = Got(message: Decoded) | Waiting | Failed(fault: Fault)

  /** The dictionary for a frame: the one that was latched, or the one its BeginString names. */
  function DictFor(c: Codec, s: Stream, begin: nat): Option<Dictionary>
    requires 2 <= begin <= |s.data|
  {
    if s.dict.Some? then s.dict
    else if s.data[2..begin] in c.known then Some(c.known[s.data[2..begin]])
    else None
  }

  lemma {:induction false} FrameIs(data: seq<Byte>, delimiter: Byte, max: nat)
    requires FrameOf(data, delimiter, max).Extent?
    ensures var f := FrameOf(data, delimiter, max); 2 <= f.begin < |data| && CHECKSUM_LEN < f.len <= max
  {
  }

  /** The first message of the bytes, once all of it has come. A frame that does not parse is gone. */
  function Decode(c: Codec, s: Stream): (r: (Stream, Outcome))
    ensures r.1.Got? ==> |r.0.data| < |s.data|
  {
    var found := FrameOf(s.data, c.delimiter, c.max);
    match found
    case Bad(fault) => (s, Failed(fault))
    case Partial => (s, Waiting)
    case Extent(begin, len) =>
      FrameIs(s.data, c.delimiter, c.max);
      if |s.data| < len then (s, Waiting)
      else
        match DictFor(c, s, begin)
        case None => (s, Failed(UnknownVersion))
        case Some(d) =>
          var frame, rest := s.data[..len], Stream(Some(d), s.data[len..]);
          match ParsedBytes(d, frame, c.delimiter)
          case Err(e) => (rest, Failed(Unparsable(e)))
          case Ok(m) => (rest, Got(Decoded(frame, m)))
  }

  /** What comes of calling the decoder until it waits or fails. */
  datatype Drained = Drained(out: seq<Decoded>, rest: Stream, fault: Option<Fault>)

  function Drain(c: Codec, s: Stream): Drained
    decreases |s.data|
  {
    var (s', o) := Decode(c, s);
    match o
    case Waiting => Drained([], s', None)
    case Failed(fault) => Drained([], s', Some(fault))
    case Got(m) =>
      var r := Drain(c, s');
      r.(out := [m] + r.out)
  }

  /** What comes of feeding it bytes as they arrive, up to the first failure. */
  function Fed(c: Codec, s: Stream, chunks: seq<seq<Byte>>): Drained
    decreases |chunks|
  {
    if chunks == [] then Drained([], s, None)
    else
      var r := Drain(c, s.(data := s.data + chunks[0]));
      if r.fault.Some? then r
      else
        var more := Fed(c, r.rest, chunks[1..]);
        more.(out := r.out + more.out)
  }

  // ---------------------------------------------------------------------
  // More bytes
  // ---------------------------------------------------------------------

  lemma {:induction false} FindMore(data: seq<Byte>, more: seq<Byte>, i: nat, delimiter: Byte)
    requires i <= |data|
    ensures Find(data, i, delimiter) < |data| ==> Find(data + more, i, delimiter) == Find(data, i, delimiter)
    ensures Find(data, i, delimiter) == |data| ==> Find(data + more, i, delimiter) >= |data|
    decreases |data| - i
  {
    if i < |data| && data[i] != delimiter {
      FindMore(data, more, i + 1, delimiter);
    }
  }

  lemma {:induction false} SizedMore(data: seq<Byte>, more: seq<Byte>, begin: nat, end: nat, max: nat)
    requires begin < end < |data|
    ensures Sized(data + more, begin, end, max) == Sized(data, begin, end, max)
  {
    var all := data + more;
    assert all[begin + 1..end] == data[begin + 1..end];
    if StartsWith(data[begin + 1..end], 57) {
      assert all[begin + 3..end] == data[begin + 3..end];
    }
  }

  /** A frame stays a frame, and what is wrong stays wrong: only for being too long is another reason found. */
  lemma {:induction false} FrameMore(data: seq<Byte>, more: seq<Byte>, delimiter: Byte, max: nat)
    ensures var f, f' := FrameOf(data, delimiter, max), FrameOf(data + more, delimiter, max);
            && (f.Extent? ==> f' == f)
            && (f.Bad? ==> f'.Bad? && (f' == f || f == Bad(TooLong)))
  {
    hide Find, Length;
    var all, begin := data + more, Find(data, 0, delimiter);
    FindMore(data, more, 0, delimiter);
    if begin < |data| {
      assert all[..begin] == data[..begin];
      FindMore(data, more, begin + 1, delimiter);
      var end := Find(data, begin + 1, delimiter);
      if end < |data| {
        SizedMore(data, more, begin, end, max);
      }
    }
  }

  /** A message that is there is found with more bytes behind it, and so is a failure. */
  lemma {:induction false} DecodeMore(c: Codec, s: Stream, more: seq<Byte>)
    ensures var (t, o), (t', o') := Decode(c, s), Decode(c, s.(data := s.data + more));
            && (o.Got? ==> o' == o && t' == t.(data := t.data + more))
            && (o.Failed? ==> o'.Failed? && (o' == o || o == Failed(TooLong)))
  {
    hide FrameOf, ParsedBytes;
    FrameMore(s.data, more, c.delimiter, c.max);
    var f, all := FrameOf(s.data, c.delimiter, c.max), s.data + more;
    if f.Extent? {
      FrameIs(s.data, c.delimiter, c.max);
      assert all[2..f.begin] == s.data[2..f.begin];
      if f.len <= |s.data| {
        assert all[..f.len] == s.data[..f.len] && all[f.len..] == s.data[f.len..] + more;
      }
    }
  }

  /** What has been found is found all the same when the rest has come too. */
  lemma {:induction false} DrainMore(c: Codec, s: Stream, more: seq<Byte>)
    ensures var a, b := Drain(c, s), Drain(c, s.(data := s.data + more));
            if a.fault.Some? then b.out == a.out && b.fault.Some? && (b.fault == a.fault || a.fault == Some(TooLong))
            else
              var r := Drain(c, a.rest.(data := a.rest.data + more));
              b == r.(out := a.out + r.out)
    decreases |s.data|
  {
    hide Decode;
    DecodeMore(c, s, more);
    var (t, o) := Decode(c, s);
    if o.Got? {
      DrainMore(c, t, more);
      var a := Drain(c, t);
      if a.fault.None? {
        var r := Drain(c, a.rest.(data := a.rest.data + more));
        assert [o.message] + (a.out + r.out) == [o.message] + a.out + r.out;
      }
    } else if o.Waiting? {
      WaitingStays(c, s);
      var r := Drain(c, s.(data := s.data + more));
      assert [] + r.out == r.out;
    }
  }

  lemma {:induction false} WaitingStays(c: Codec, s: Stream)
    requires Decode(c, s).1.Waiting?
    ensures Decode(c, s).0 == s && Drain(c, s) == Drained([], s, None)
  {
  }

  function Concat(chunks: seq<seq<Byte>>): seq<Byte> {
    if chunks == [] then [] else chunks[0] + Concat(chunks[1..])
  }

  lemma {:induction false} DrainedWaits(c: Codec, s: Stream)
    requires Drain(c, s).fault.None?
    ensures Decode(c, Drain(c, s).rest).1.Waiting?
    decreases |s.data|
  {
    hide Decode;
    var (t, o) := Decode(c, s);
    if o.Got? {
      DrainedWaits(c, t);
    } else {
      WaitingStays(c, s);
    }
  }

  /**
   * However the bytes are cut into chunks, the decoder gives the messages it would give if they had
   * come at once, and fails if and only if it would; only its reason may be that it had waited for
   * more bytes than a frame may have.
   */
  lemma {:induction false} ChunkingUnseen(c: Codec, s: Stream, chunks: seq<seq<Byte>>)
    requires Decode(c, s).1.Waiting?
    ensures var a, b := Fed(c, s, chunks), Drain(c, s.(data := s.data + Concat(chunks)));
            && a.out == b.out && (a.fault.Some? <==> b.fault.Some?)
            && (a.fault != b.fault ==> a.fault == Some(TooLong))
            && (a.fault.None? ==> a.rest == b.rest)
    decreases |chunks|
  {
    hide Decode, Drain;
    if chunks == [] {
      assert s.(data := s.data + []) == s;
      WaitingStays(c, s);
    } else {
      var s1, rest := s.(data := s.data + chunks[0]), Concat(chunks[1..]);
      assert s.data + (chunks[0] + rest) == s1.data + rest;
      DrainMore(c, s1, rest);
      var r := Drain(c, s1);
      if r.fault.None? {
        DrainedWaits(c, s1);
        ChunkingUnseen(c, r.rest, chunks[1..]);
      }
    }
  }

  /** A decoder that waits holds no more bytes than a frame may have. */
  lemma {:induction false} WaitingBounded(c: Codec, s: Stream)
    requires Decode(c, s).1.Waiting?
    ensures |s.data| <= c.max
  {
    hide ParsedBytes;
  }

  /** Once a version has been latched, every later message is parsed by it. */
  lemma {:induction false} VersionLatched(c: Codec, s: Stream, i: nat)
    requires s.dict.Some? && i < |Drain(c, s).out|
    ensures var m := Drain(c, s).out[i]; ParsedBytes(s.dict.value, m.frame, c.delimiter) == Ok(m.machine)
    ensures Drain(c, s).rest.dict == s.dict
    decreases |s.data|
  {
    hide FrameOf, ParsedBytes;
    var (t, o) := Decode(c, s);
    assert o.Got? && t.dict == s.dict;
    var r := Drain(c, t);
    if i > 0 {
      VersionLatched(c, t, i - 1);
    } else if r.out != [] {
      VersionLatched(c, t, 0);
    } else {
      EmptyDrain(c, t);
    }
  }

  lemma {:induction false} EmptyDrain(c: Codec, s: Stream)
    requires Drain(c, s).out == [] && s.dict.Some?
    ensures Drain(c, s).rest.dict == s.dict
  {
    hide FrameOf, ParsedBytes;
  }
}
