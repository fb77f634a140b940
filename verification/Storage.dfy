/**
 * Where field bytes are (message/tape.rs): in the message as it was received, or in an arena that
 * building and editing only ever append to.
 */
module Storage {
  import opened Tape
  import opened Numerals

  const SOH: Byte := 1
  const EQUALS: Byte := 61

  datatype Segments = Segments(wire: seq<Byte>, arena: seq<Byte>)
  {
    function Of(seg: Seg): seq<Byte> {
      if seg.Wire? then wire else arena
    }
  }

  /** One past a field's delimiter. */
  function End(e: Entry): nat {
    e.off + e.valOff + e.len + 1
  }

  /** The whole field is in its segment. */
  predicate Present(segs: Segments, e: Entry) {
    End(e) <= |segs.Of(e.seg)|
  }

  /** A field's tag, value and delimiter. */
  function FieldText(segs: Segments, e: Entry): (s: seq<Byte>)
    requires Present(segs, e)
    ensures |s| == e.valOff + e.len + 1
  {
    segs.Of(e.seg)[e.off..End(e)]
  }

  function Value(segs: Segments, e: Entry): (s: seq<Byte>)
    requires Present(segs, e)
    ensures |s| == e.len
  {
    segs.Of(e.seg)[e.off + e.valOff..End(e) - 1]
  }

  /** The same received bytes, and everything the arena held. */
  predicate Extends(segs: Segments, segs': Segments) {
    segs'.wire == segs.wire && segs.arena <= segs'.arena
  }

  /** Appending to the arena changes no field there is. */
  lemma {:induction false} ExtendsKeeps(segs: Segments, segs': Segments, e: Entry)
    requires Extends(segs, segs') && Present(segs, e)
    ensures Present(segs', e) && FieldText(segs', e) == FieldText(segs, e) && Value(segs', e) == Value(segs, e)
  {
  }

  /** A field as it is written: its tag in decimal, its value, and a delimiter. */
  function Spelled(tag: nat, value: seq<Byte>): seq<Byte> {
    Digits(tag) + [EQUALS] + value + [SOH]
  }

  /** The entry for a field written at the end of an arena of this length. */
  function SpelledEntry(tag: nat, kind: Kind, at: nat, value: seq<Byte>): Entry {
    Entry(tag, kind, 0, Arena, |Digits(tag)| + 1, at, |value|)
  }

  /** What is written is what is read: the entry of a field just appended has its value. */
  lemma {:induction false} SpelledReads(segs: Segments, tag: nat, kind: Kind, value: seq<Byte>)
    ensures var segs', e := segs.(arena := segs.arena + Spelled(tag, value)), SpelledEntry(tag, kind, |segs.arena|, value);
            && Extends(segs, segs')
            && Present(segs', e) && Value(segs', e) == value && FieldText(segs', e) == Spelled(tag, value)
  {
    hide Digits;
    var a, d := segs.arena, Digits(tag) + [EQUALS];
    assert a + Spelled(tag, value) == a + d + value + [SOH];
    assert (a + d + value + [SOH])[|a| + |d|..|a| + |d| + |value|] == value;
  }
}
