/**
 * Which bytes begin with a frame (codec.rs:152-200), without looking for one: the shape of BeginString and
 * BodyLength, and the text of a length.
 */
module Frames {
  import opened Tape
  import opened Numerals
  import opened Lexing
  import opened Framing

  // ---------------------------------------------------------------------
  // Numbers as text
  // ---------------------------------------------------------------------

  function Zeros(k: nat): (s: seq<Byte>)
    ensures |s| == k && forall i :: 0 <= i < k ==> s[i] == ZERO
  {
    seq(k, _ => ZERO)
  }

  /** A number in decimal, behind any number of zeros. */
  ghost predicate SpellsNumber(s: seq<Byte>, n: nat) {
    exists k :: 0 <= k <= |s| && s == Zeros(k) + Digits(n)
  }

  lemma {:induction false} ZerosRead(k: nat, s: seq<Byte>)
    requires s != []
    ensures Read(Zeros(k) + s) == Read(s)
    decreases k
  {
    if k == 0 {
      assert Zeros(0) + s == s;
    } else {
      var all := Zeros(k) + s;
      assert all[1..] == Zeros(k - 1) + s && all[0] == ZERO;
      ZerosRead(k - 1, s);
      hide Zeros;
    }
  }

  /** Text is read as a number if and only if it spells it, and it is not too large. */
  lemma {:induction false} NumberWhen(s: seq<Byte>, n: nat)
    ensures Read(s) == Number(n) <==> n <= MAX_UINT && SpellsNumber(s, n)
    decreases |s|
  {
    hide Digits;
    if Read(s) == Number(n) {
      ReadIsSmall(s, n);
      if |s| == 1 || s[0] != ZERO {
        WrittenAsRead(s, n);
        assert s == Zeros(0) + Digits(n);
      } else {
        SkipsZero(s);
        NumberWhen(s[1..], n);
        var k :| 0 <= k <= |s[1..]| && s[1..] == Zeros(k) + Digits(n);
        assert s == Zeros(k + 1) + Digits(n);
      }
    }
    if n <= MAX_UINT && SpellsNumber(s, n) {
      var k :| 0 <= k <= |s| && s == Zeros(k) + Digits(n);
      ZerosRead(k, Digits(n));
      ReadBack(n);
    }
  }

  lemma {:induction false} SkipsZero(s: seq<Byte>)
    requires |s| > 1 && s[0] == ZERO
    ensures Read(s) == Read(s[1..])
  {
  }

  lemma {:induction false} ReadIsSmall(s: seq<Byte>, n: nat)
    requires Read(s) == Number(n)
    ensures s != [] && n <= MAX_UINT
  {
    ReadFromSmall(s, 0);
  }

  lemma {:induction false} ReadFromSmall(s: seq<Byte>, v: nat)
    requires ReadFrom(s, v).Number? && v <= MAX_UINT
    ensures ReadFrom(s, v).value <= MAX_UINT
    decreases |s|
  {
    if s != [] {
      ReadFromSmall(s[1..], v * 10 + (s[0] - ZERO));
    }
  }

  /** A length may have a plus sign. */
  lemma {:induction false} LengthWhen(s: seq<Byte>, n: nat)
    ensures Length(s) == Some(n)
            <==> n <= MAX_UINT && (SpellsNumber(s, n) || (s != [] && s[0] == 43 && SpellsNumber(s[1..], n)))
  {
    hide Read, SpellsNumber;
    NumberWhen(s, n);
    if s != [] && s[0] == 43 {
      NumberWhen(s[1..], n);
      PlusIsNoDigit(s, n);
    }
  }

  lemma {:induction false} PlusIsNoDigit(s: seq<Byte>, n: nat)
    requires s != [] && s[0] == 43
    ensures Read(s) != Number(n)
  {
  }

  // ---------------------------------------------------------------------
  // Frames
  // ---------------------------------------------------------------------

  /** The first delimiter from an index on is there. */
  predicate FirstAt(data: seq<Byte>, from: nat, at: nat, delimiter: Byte) {
    from <= at < |data| && data[at] == delimiter && forall i :: from <= i < at ==> data[i] != delimiter
  }

  /** BeginString up to `begin` and BodyLength up to `end`, which says `n`. */
  ghost predicate Begins(data: seq<Byte>, delimiter: Byte, begin: nat, end: nat, n: nat) {
    && FirstAt(data, 0, begin, delimiter) && FirstAt(data, begin + 1, end, delimiter)
    && begin >= 2 && data[..2] == [56, 61]
    && end >= begin + 3 && data[begin + 1..begin + 3] == [57, 61]
    && Length(data[begin + 3..end]) == Some(n)
  }

  lemma {:induction false} FindWhen(data: seq<Byte>, from: nat, at: nat, delimiter: Byte)
    requires from <= |data|
    ensures FirstAt(data, from, at, delimiter) <==> Find(data, from, delimiter) == at < |data|
  {
    hide Find;
    var f := Find(data, from, delimiter);
    assert forall i :: from <= i < f ==> data[i] != delimiter by {
      assert forall i :: from <= i < f ==> data[i] == data[from..f][i - from];
    }
    if FirstAt(data, from, at, delimiter) {
      assert !(f < at) && !(at < f);
    }
  }

  lemma {:induction false} StartWhen(s: seq<Byte>, digit: Byte)
    ensures StartsWith(s, digit) <==> |s| >= 2 && s[..2] == [digit, 61]
  {
    if |s| >= 2 {
      assert s[..2] == [s[0], s[1]];
    }
  }

  /**
   * A frame is found if and only if there is one: the bytes begin with a BeginString and a BodyLength that says
   * `n`, and with that body and a CheckSum field it is not too long.
   */
  lemma {:induction false} FrameWhen(data: seq<Byte>, delimiter: Byte, max: nat, begin: nat, len: nat)
    ensures FrameOf(data, delimiter, max) == Extent(begin, len)
            <==> exists end: nat, n: nat :: Begins(data, delimiter, begin, end, n) && len == end + 1 + n + 7 && len <= max
  {
    hide Find, Length, StartsWith, FirstAt;
    var f := FrameOf(data, delimiter, max);
    if f == Extent(begin, len) {
      var end := Find(data, begin + 1, delimiter);
      FindWhen(data, 0, begin, delimiter);
      FindWhen(data, begin + 1, end, delimiter);
      StartWhen(data[..begin], 56);
      StartWhen(data[begin + 1..end], 57);
      assert data[..begin][..2] == data[..2];
      assert data[begin + 1..end][..2] == data[begin + 1..begin + 3];
      var n := Length(data[begin + 3..end]).value;
      assert Begins(data, delimiter, begin, end, n) && len == end + 1 + n + 7;
    }
    if end: nat, n: nat :| Begins(data, delimiter, begin, end, n) && len == end + 1 + n + 7 && len <= max {
      Found(data, delimiter, max, begin, end, n);
    }
  }

  lemma {:induction false} Found(data: seq<Byte>, delimiter: Byte, max: nat, begin: nat, end: nat, n: nat)
    requires Begins(data, delimiter, begin, end, n) && end + 1 + n + 7 <= max
    ensures FrameOf(data, delimiter, max) == Extent(begin, end + 1 + n + 7)
  {
    hide Find, Length, StartsWith;
    FindWhen(data, 0, begin, delimiter);
    FindWhen(data, begin + 1, end, delimiter);
    StartWhen(data[..begin], 56);
    StartWhen(data[begin + 1..end], 57);
    assert data[..begin][..2] == data[..2];
    assert data[begin + 1..end][..2] == data[begin + 1..begin + 3];
  }

  /** No delimiter from an index on. */
  predicate NoneFrom(data: seq<Byte>, from: nat, delimiter: Byte) {
    forall i :: from <= i < |data| ==> data[i] != delimiter
  }

  lemma {:induction false} FindNone(data: seq<Byte>, from: nat, delimiter: Byte)
    requires from <= |data|
    ensures NoneFrom(data, from, delimiter) <==> Find(data, from, delimiter) == |data|
  {
    hide Find;
    var f := Find(data, from, delimiter);
    assert forall i :: from <= i < f ==> data[i] == data[from..f][i - from];
    assert f < |data| ==> data[f] == delimiter;
  }

  /**
   * More bytes are waited for if and only if there are not too many already, and the second delimiter has not
   * come, nor the first without a BeginString in front of it. In every other case that is no frame the bytes
   * are refused.
   */
  lemma {:induction false} WaitsWhen(data: seq<Byte>, delimiter: Byte, max: nat)
    ensures FrameOf(data, delimiter, max) == Partial
            <==> && |data| <= max
                 && (|| NoneFrom(data, 0, delimiter)
                     || exists begin: nat :: FirstAt(data, 0, begin, delimiter) && begin >= 2 && data[..2] == [56, 61]
                                             && NoneFrom(data, begin + 1, delimiter))
  {
    hide Find, StartsWith, FirstAt, NoneFrom, Length;
    var begin := Find(data, 0, delimiter);
    FindNone(data, 0, delimiter);
    if begin < |data| {
      FindWhen(data, 0, begin, delimiter);
      FindNone(data, begin + 1, delimiter);
      StartWhen(data[..begin], 56);
      assert begin >= 2 ==> data[..begin][..2] == data[..2];
      forall b: nat | FirstAt(data, 0, b, delimiter)
        ensures b == begin
      {
        FindWhen(data, 0, b, delimiter);
      }
    } else {
      forall b: nat
        ensures !FirstAt(data, 0, b, delimiter)
      {
        FindWhen(data, 0, b, delimiter);
      }
    }
  }

  // ---------------------------------------------------------------------
  // One call of the decoder
  // ---------------------------------------------------------------------

  /** All of a frame has come, and its version is latched or known. */
  ghost predicate Ready(c: Codec, s: Stream, begin: nat, len: nat) {
    && (exists end: nat, n: nat :: Begins(s.data, c.delimiter, begin, end, n) && len == end + 1 + n + 7)
    && len <= c.max && len <= |s.data| && begin >= 2
    && (s.dict.Some? || s.data[2..begin] in c.known)
  }

  /** A frame that has come is taken off the bytes, whether or not it parses, and its version is latched. */
  lemma {:induction false} FrameTaken(c: Codec, s: Stream, begin: nat, len: nat)
    requires Ready(c, s, begin, len)
    ensures var (t, o) := Decode(c, s);
            var d := if s.dict.Some? then s.dict.value else c.known[s.data[2..begin]];
            && t == Stream(Some(d), s.data[len..])
            && match ParsedBytes(d, s.data[..len], c.delimiter)
               case Ok(m) => o == Got(Decoded(s.data[..len], m))
               case Err(e) => o == Failed(Unparsable(e))
  {
    hide FrameOf, ParsedBytes, Begins;
    FrameWhen(s.data, c.delimiter, c.max, begin, len);
  }

  /** And otherwise nothing is taken, and nothing is given. */
  lemma {:induction false} NothingTaken(c: Codec, s: Stream)
    requires forall begin: nat, len: nat :: !Ready(c, s, begin, len)
    ensures Decode(c, s).0 == s && !Decode(c, s).1.Got?
  {
    hide ParsedBytes, Begins;
    var f := FrameOf(s.data, c.delimiter, c.max);
    if f.Extent? {
      FrameWhen(s.data, c.delimiter, c.max, f.begin, f.len);
      FrameIs(s.data, c.delimiter, c.max);
      assert !Ready(c, s, f.begin, f.len);
    }
    hide FrameOf;
  }
}
