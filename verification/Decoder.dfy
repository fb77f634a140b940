/** The decoder and the buffer it takes messages off (codec.rs), as they change. */
module Decoder {
  import opened Tape
  import opened Document
  import opened Numerals
  import opened Storage
  import opened Messages
  import opened Shape
  import opened Parsing
  import opened Lexing
  import opened Legible
  import opened MessageTrip
  import P = Parser
  import opened Framing

  /** Bytes that have come and have not been taken. */
  class Buffer {
    var bytes: seq<Byte>

    constructor ()
      ensures bytes == []
    {
      bytes := [];
    }

    /** The first bytes, taken off. */
    method SplitTo(n: nat) returns (front: seq<Byte>)
      requires n <= |bytes|
      modifies this
      ensures front == old(bytes[..n]) && bytes == old(bytes[n..])
    {
      front, bytes := bytes[..n], bytes[n..];
    }
  }

  class FixDecoder {
    const codec: Codec
    var dict: Option<Dictionary>

    /** Every version there is can be parsed by. */
    ghost predicate Valid()
      reads this
    {
      && (forall b :: b in codec.known ==> Usable(codec.known[b]))
      && (dict.Some? ==> Usable(dict.value))
    }

    ghost function On(data: Buffer): Stream
      reads this, data
    {
      Stream(dict, data.bytes)
    }

    constructor (codec: Codec)
      requires forall b :: b in codec.known ==> Usable(codec.known[b])
      ensures Valid() && dict == None && this.codec == codec
    {
      this.codec, dict := codec, None;
    }

    /** The buffer's first message, once all of it has come. */
    method Next(data: Buffer) returns (msg: Message?, fault: Option<Fault>)
      requires Valid()
      modifies this`dict, data
      ensures Valid()
      ensures On(data) == Decode(codec, old(On(data))).0
      ensures match Decode(codec, old(On(data))).1
              case Waiting => msg == null && fault == None
              case Failed(f) => msg == null && fault == Some(f)
              case Got(m) =>
                && fault == None && msg != null && fresh(msg) && msg.Valid() && WellFormed(msg.doc)
                && msg.Im() == Image(m.machine.tape, m.machine.bodyStart, m.machine.trailerStart)
                && dict.Some? && Over(msg, dict.value, m.frame, codec.delimiter)
    {
      hide FrameOf, ParsedBytes, WellFormed, IsMessage, FieldsFrom, Rewired;
      msg, fault := null, None;
      ghost var s := On(data);
      var found := FrameOf(data.bytes, codec.delimiter, codec.max);
      if found.Bad? {
        return null, Some(found.fault);
      }
      if found.Partial? || |data.bytes| < found.len {
        return;
      }
      FrameIs(data.bytes, codec.delimiter, codec.max);
      if dict.None? {
        var begin := data.bytes[2..found.begin];
        if begin !in codec.known {
          return null, Some(UnknownVersion);
        }
        dict := Some(codec.known[begin]);
      }
      var frame := data.SplitTo(found.len);
      var error;
      msg, error := P.ParseMessage(dict.value, frame, codec.delimiter);
      if error.Some? {
        return null, Some(Unparsable(error.value));
      }
    }
  }

  /** A message's bytes are its frame's, with SOH where its fields end. */
  ghost predicate Over(msg: Message, d: Dictionary, frame: seq<Byte>, delimiter: Byte)
    reads msg`wire, msg`arena
  {
    var ts := FieldsFrom(d, frame, delimiter, START);
    (forall i :: 0 <= i < |ts| ==> End(ts[i].entry) <= |frame|) && msg.Segs() == Segments(Rewired(frame, ts), [])
  }

  /** A dictionary whose messages can be laid out. */
  ghost predicate Usable(d: Dictionary) {
    Sane(d) && PairsTogether(Tables(d, None))
  }
}
