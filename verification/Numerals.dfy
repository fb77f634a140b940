/** Unsigned numbers as text (message/types.rs): how they are written, and what text is one. */
module Numerals {

  type Byte = b: int | 0 <= b < 256

  const ZERO: Byte := 48

  /** The largest number that is read. */
  const MAX_UINT: nat := 0xFFFF_FFFF_FFFF_FFFF

  /** A number in decimal. */
  function Digits(v: nat): (s: seq<Byte>)
    ensures s != []
  {
    if v < 10 then [ZERO + v] else Digits(v / 10) + [ZERO + v % 10]
  }

  predicate IsDigit(c: Byte) {
    ZERO <= c <= ZERO + 9
  }

  datatype Reading = Number(value: nat) | Malformed | OutOfRange

  /** Reading on from a value. */
  function ReadFrom(s: seq<Byte>, v: nat): Reading {
    if s == [] then Number(v)
    else if !IsDigit(s[0]) then Malformed
    else if v * 10 + (s[0] - ZERO) > MAX_UINT then OutOfRange
    else ReadFrom(s[1..], v * 10 + (s[0] - ZERO))
  }

  function Read(s: seq<Byte>): Reading {
    if s == [] then Malformed else ReadFrom(s, 0)
  }

  lemma {:induction false} ReadFromAppend(a: seq<Byte>, c: Byte, v: nat)
    requires IsDigit(c)
    ensures ReadFrom(a + [c], v)
            == match ReadFrom(a, v) {
                 case Number(w) => if w * 10 + (c - ZERO) > MAX_UINT then OutOfRange else Number(w * 10 + (c - ZERO))
                 case e => e
               }
    decreases |a|
  {
    if a == [] {
      assert a + [c] == [c] && [c][1..] == [];
    } else {
      assert (a + [c])[1..] == a[1..] + [c] && (a + [c])[0] == a[0];
      if IsDigit(a[0]) && v * 10 + (a[0] - ZERO) <= MAX_UINT {
        ReadFromAppend(a[1..], c, v * 10 + (a[0] - ZERO));
      }
    }
  }

  /** What is written is read back; a number that is too large is seen to be. */
  lemma {:induction false} ReadBack(v: nat)
    ensures Read(Digits(v)) == if v <= MAX_UINT then Number(v) else OutOfRange
    ensures ReadFrom(Digits(v), 0) == Read(Digits(v))
  {
    if v < 10 {
      var s := Digits(v);
      assert s == [ZERO + v] && s[1..] == [];
      assert ReadFrom(s[1..], v) == Number(v);
    } else {
      ReadBack(v / 10);
      ReadFromAppend(Digits(v / 10), ZERO + v % 10, 0);
    }
  }

  lemma {:induction false} DigitsAreDigits(v: nat)
    ensures forall i :: 0 <= i < |Digits(v)| ==> IsDigit(Digits(v)[i])
    ensures v > 0 ==> Digits(v)[0] != ZERO
  {
    if v >= 10 {
      DigitsAreDigits(v / 10);
    }
  }

  /** Text that is a number, and how it would be written: the same, unless it has a leading zero. */
  lemma {:induction false} WrittenAsRead(s: seq<Byte>, v: nat)
    requires Read(s) == Number(v)
    ensures s == Digits(v) <==> (|s| == 1 || s[0] != ZERO)
    decreases |s|
  {
    var k := |s| - 1;
    var a, c := s[..k], s[k];
    assert s == a + [c];
    AllDigits(s, 0);
    if a == [] {
      assert s[1..] == [];
    } else {
      ReadFromAppend(a, c, 0);
      var w := ReadFrom(a, 0).value;
      WrittenAsRead(a, w);
      assert v / 10 == w && v % 10 == c - ZERO;
      LeadingZero(a, w);
      DigitsAreDigits(v);
      DigitsAreDigits(w);
    }
  }

  lemma {:induction false} AllDigits(s: seq<Byte>, v: nat)
    requires ReadFrom(s, v).Number?
    ensures forall i :: 0 <= i < |s| ==> IsDigit(s[i])
    decreases |s|
  {
    if s != [] {
      AllDigits(s[1..], v * 10 + (s[0] - ZERO));
      assert forall i :: 1 <= i < |s| ==> s[i] == s[1..][i - 1];
    }
  }

  lemma {:induction false} LeadingZero(a: seq<Byte>, w: nat)
    requires a != [] && ReadFrom(a, 0) == Number(w)
    ensures w == 0 ==> a[0] == ZERO
  {
    Grows(a[1..], a[0] - ZERO);
  }

  lemma {:induction false} Grows(s: seq<Byte>, v: nat)
    requires ReadFrom(s, v).Number?
    ensures ReadFrom(s, v).value >= v
    decreases |s|
  {
    if s != [] {
      Grows(s[1..], v * 10 + (s[0] - ZERO));
    }
  }

  /** Fill the start of a buffer with a number's digits, last first. */
  method WriteUint(out: array<Byte>, value: nat) returns (n: nat)
    requires |Digits(value)| <= out.Length
    modifies out
    ensures n == |Digits(value)| && out[..n] == Digits(value) && out[n..] == old(out[n..])
  {
    n := |Digits(value)|;
    var i, v := n, value;
    while i > 0
      invariant 0 <= i <= n
      invariant out[n..] == old(out[n..])
      invariant if i == 0 then out[..n] == Digits(value) else Digits(v) + out[i..n] == Digits(value) && |Digits(v)| == i
    {
      ghost var tail := out[i..n];
      i := i - 1;
      out[i] := ZERO + v % 10;
      assert out[i..n] == [ZERO + v % 10] + tail;
      if i > 0 {
        assert Digits(v / 10) + ([ZERO + v % 10] + tail) == Digits(v) + tail;
      }
      v := v / 10;
    }
  }

  /** Read text as a number. */
  method ParseUint(raw: seq<Byte>) returns (r: Reading)
    ensures r == Read(raw)
  {
    if raw == [] {
      return Malformed;
    }
    var i: nat, v: nat := 0, 0;
    assert raw[0..] == raw;
    while i < |raw|
      invariant i <= |raw| && ReadFrom(raw[i..], v) == ReadFrom(raw, 0)
    {
      assert raw[i..][0] == raw[i] && raw[i..][1..] == raw[i + 1..];
      var c := raw[i];
      if !IsDigit(c) {
        return Malformed;
      }
      if v * 10 + (c - ZERO) > MAX_UINT {
        return OutOfRange;
      }
      v := v * 10 + (c - ZERO);
      i := i + 1;
    }
    return Number(v);
  }

  /** A number's digits, in a buffer of their own. */
  method PutUint(v: nat) returns (text: seq<Byte>)
    ensures text == Digits(v)
  {
    var out := new Byte[|Digits(v)|](_ => ZERO);
    var n := WriteUint(out, v);
    text := out[..n];
  }
}
