/**
 * Writing a message (message/encode.rs): BodyLength from the pieces of the body, runs of adjacent
 * field bytes copied whole, and a CheckSum that does not depend on the delimiter.
 */
module Output {
  import opened Tape
  import opened Parsing
  import opened Numerals
  import opened Storage

  // ---------------------------------------------------------------------
  // What each field and group is written as
  // ---------------------------------------------------------------------

  /** A field's bytes are there, and end in SOH. */
  predicate Stored(segs: Segments, t: Token) {
    t.number.None? ==> End(t.entry) <= |segs.Of(t.entry.seg)| && segs.Of(t.entry.seg)[End(t.entry) - 1] == SOH
  }

  predicate AllStored(segs: Segments, ts: seq<Token>) {
    forall i :: 0 <= i < |ts| ==> Stored(segs, ts[i])
  }

  /** A NumInGroup field. */
  function GroupText(tag: nat, count: nat, delimiter: Byte): seq<Byte> {
    Digits(tag) + [EQUALS] + Digits(count) + [delimiter]
  }

  /** A field with a delimiter in the place of its SOH, or a group's field. */
  function TokenBytes(segs: Segments, t: Token, delimiter: Byte): (s: seq<Byte>)
    requires Stored(segs, t)
    ensures s != [] && s[|s| - 1] == delimiter
  {
    if t.number.Some? then GroupText(t.entry.tag, t.number.value, delimiter)
    else segs.Of(t.entry.seg)[t.entry.off..End(t.entry) - 1] + [delimiter]
  }

  /** The body, field by field. */
  function BodyBytes(segs: Segments, ts: seq<Token>, delimiter: Byte): seq<Byte>
    requires AllStored(segs, ts)
    decreases |ts|
  {
    if ts == [] then []
    else BodyBytes(segs, ts[..|ts| - 1], delimiter) + TokenBytes(segs, ts[|ts| - 1], delimiter)
  }

  lemma {:induction false} BodyNext(segs: Segments, ts: seq<Token>, i: nat, delimiter: Byte)
    requires AllStored(segs, ts) && i < |ts|
    ensures BodyBytes(segs, ts[..i + 1], delimiter)
            == BodyBytes(segs, ts[..i], delimiter) + TokenBytes(segs, ts[i], delimiter)
  {
    assert ts[..i + 1][..i] == ts[..i];
  }

  // ---------------------------------------------------------------------
  // Pieces
  // ---------------------------------------------------------------------

  /** What is copied in one go, or spelt out. */
  datatype Piece = Run(seg: Seg, start: nat, end: nat) | Count(tag: nat, count: nat)

  predicate PieceStored(segs: Segments, p: Piece) {
    p.Run? ==> p.start <= p.end <= |segs.Of(p.seg)|
  }

  predicate AllPiecesStored(segs: Segments, ps: seq<Piece>) {
    forall i :: 0 <= i < |ps| ==> PieceStored(segs, ps[i])
  }

  function PieceBytes(segs: Segments, p: Piece): seq<Byte>
    requires PieceStored(segs, p)
  {
    match p
    case Run(seg, a, b) => segs.Of(seg)[a..b]
    case Count(tag, count) => GroupText(tag, count, SOH)
  }

  function PiecesBytes(segs: Segments, ps: seq<Piece>): seq<Byte>
    requires AllPiecesStored(segs, ps)
    decreases |ps|
  {
    if ps == [] then [] else PiecesBytes(segs, ps[..|ps| - 1]) + PieceBytes(segs, ps[|ps| - 1])
  }

  lemma {:induction false} PiecesNext(segs: Segments, ps: seq<Piece>, p: Piece)
    requires AllPiecesStored(segs, ps) && PieceStored(segs, p)
    ensures AllPiecesStored(segs, ps + [p])
    ensures PiecesBytes(segs, ps + [p]) == PiecesBytes(segs, ps) + PieceBytes(segs, p)
  {
    assert (ps + [p])[..|ps|] == ps;
  }

  /** How long a piece is. */
  function PieceLen(p: Piece): nat
    requires p.Run? ==> p.start <= p.end
  {
    match p
    case Run(_, a, b) => b - a
    case Count(tag, count) => |Digits(tag)| + 1 + |Digits(count)| + 1
  }

  /** No run goes on where the one before it ends. */
  predicate Joined(ps: seq<Piece>) {
    forall i :: 0 < i < |ps| && ps[i].Run? && ps[i - 1].Run? ==> ps[i].seg != ps[i - 1].seg || ps[i].start != ps[i - 1].end
  }

  /** A run still open, as a piece. */
  function Flushed(ps: seq<Piece>, run: Option<Piece>): seq<Piece> {
    match run
    case None => ps
    case Some(p) => ps + [p]
  }

  lemma {:induction false} FieldBytes(segs: Segments, t: Token)
    requires Stored(segs, t) && t.number.None?
    ensures TokenBytes(segs, t, SOH) == segs.Of(t.entry.seg)[t.entry.off..End(t.entry)]
  {
  }

  /** The pieces so far, and the run still open, write the fields so far. */
  predicate SoFar(segs: Segments, ps: seq<Piece>, run: Option<Piece>, ts: seq<Token>)
    requires AllStored(segs, ts)
  {
    && (run.Some? ==> run.value.Run?)
    && (run.None? && ps != [] ==> ps[|ps| - 1].Count?)
    && Joined(Flushed(ps, run))
    && AllPiecesStored(segs, Flushed(ps, run))
    && PiecesBytes(segs, Flushed(ps, run)) == BodyBytes(segs, ts, SOH)
  }

  lemma {:induction false} JoinedNext(ps: seq<Piece>, p: Piece)
    requires Joined(ps)
    requires ps != [] && p.Run? && ps[|ps| - 1].Run? ==> p.seg != ps[|ps| - 1].seg || p.start != ps[|ps| - 1].end
    ensures Joined(ps + [p])
  {
  }

  lemma {:induction false} JoinedLast(ps: seq<Piece>, p: Piece, end: nat)
    requires p.Run? && Joined(ps + [p])
    ensures Joined(ps + [p.(end := end)])
  {
    var a, b := ps + [p], ps + [p.(end := end)];
    assert forall i :: 0 <= i < |a| - 1 ==> b[i] == a[i];
    assert |ps| > 0 ==> a[|a| - 1] == p && a[|a| - 2] == ps[|ps| - 1];
  }

  /** A group's field. */
  lemma {:induction false} GroupJoins(segs: Segments, ps: seq<Piece>, run: Option<Piece>, ts: seq<Token>, i: nat)
    requires AllStored(segs, ts) && i < |ts| && SoFar(segs, ps, run, ts[..i]) && ts[i].number.Some?
    ensures SoFar(segs, Flushed(ps, run) + [Count(ts[i].entry.tag, ts[i].number.value)], None, ts[..i + 1])
  {
    hide BodyBytes, TokenBytes, PiecesBytes, GroupText, Joined;
    var t := ts[i];
    var p := Count(t.entry.tag, t.number.value);
    BodyNext(segs, ts, i, SOH);
    CountBytes(segs, t);
    PiecesNext(segs, Flushed(ps, run), p);
    JoinedNext(Flushed(ps, run), p);
  }

  /** A field that goes on where the open run ends. */
  lemma {:induction false} RunJoins(segs: Segments, ps: seq<Piece>, run: Piece, ts: seq<Token>, i: nat)
    requires AllStored(segs, ts) && i < |ts| && SoFar(segs, ps, Some(run), ts[..i]) && ts[i].number.None?
    requires run.seg == ts[i].entry.seg && run.end == ts[i].entry.off
    ensures SoFar(segs, ps, Some(run.(end := End(ts[i].entry))), ts[..i + 1])
  {
    hide BodyBytes, TokenBytes, PiecesBytes, GroupText, Joined;
    BodyNext(segs, ts, i, SOH);
    FieldBytes(segs, ts[i]);
    assert Flushed(ps, Some(run)) == ps + [run];
    RunGrows(segs, ps, run, End(ts[i].entry));
    JoinedLast(ps, run, End(ts[i].entry));
  }

  /** A field that starts another run. */
  lemma {:induction false} RunStarts(segs: Segments, ps: seq<Piece>, run: Option<Piece>, ts: seq<Token>, i: nat)
    requires AllStored(segs, ts) && i < |ts| && SoFar(segs, ps, run, ts[..i]) && ts[i].number.None?
    requires !(run.Some? && run.value.seg == ts[i].entry.seg && run.value.end == ts[i].entry.off)
    ensures SoFar(segs, Flushed(ps, run), Some(Run(ts[i].entry.seg, ts[i].entry.off, End(ts[i].entry))), ts[..i + 1])
  {
    hide BodyBytes, TokenBytes, PiecesBytes, GroupText, Joined;
    var e := ts[i].entry;
    BodyNext(segs, ts, i, SOH);
    FieldBytes(segs, ts[i]);
    PiecesNext(segs, Flushed(ps, run), Run(e.seg, e.off, End(e)));
    JoinedNext(Flushed(ps, run), Run(e.seg, e.off, End(e)));
  }

  /** The pieces that write the body; no two runs that touch are left apart. */
  method Pieces(segs: Segments, ts: seq<Token>) returns (ps: seq<Piece>)
    requires AllStored(segs, ts)
    ensures AllPiecesStored(segs, ps) && PiecesBytes(segs, ps) == BodyBytes(segs, ts, SOH)
    ensures Joined(ps)
  {
    hide PieceBytes, PiecesBytes, BodyBytes, Joined, SoFar;
    var run: Option<Piece> := None;
    ps := [];
    var i := 0;
    NothingSoFar(segs, ts);
    while i < |ts|
      invariant i <= |ts| && (run.Some? ==> run.value.Run?) && SoFar(segs, ps, run, ts[..i])
    {
      var e := ts[i].entry;
      if ts[i].number.Some? {
        GroupJoins(segs, ps, run, ts, i);
        ps, run := Flushed(ps, run) + [Count(e.tag, ts[i].number.value)], None;
      } else if run.Some? && run.value.seg == e.seg && run.value.end == e.off {
        RunJoins(segs, ps, run.value, ts, i);
        run := Some(run.value.(end := End(e)));
      } else {
        RunStarts(segs, ps, run, ts, i);
        ps, run := Flushed(ps, run), Some(Run(e.seg, e.off, End(e)));
      }
      i := i + 1;
    }
    assert ts[..|ts|] == ts;
    AllFlushed(segs, ps, run, ts);
    ps := Flushed(ps, run);
  }

  lemma {:induction false} NothingSoFar(segs: Segments, ts: seq<Token>)
    requires AllStored(segs, ts)
    ensures SoFar(segs, [], None, ts[..0])
  {
  }

  lemma {:induction false} AllFlushed(segs: Segments, ps: seq<Piece>, run: Option<Piece>, ts: seq<Token>)
    requires AllStored(segs, ts) && SoFar(segs, ps, run, ts)
    ensures var all := Flushed(ps, run);
            AllPiecesStored(segs, all) && PiecesBytes(segs, all) == BodyBytes(segs, ts, SOH) && Joined(all)
  {
  }

  lemma {:induction false} CountBytes(segs: Segments, t: Token)
    requires t.number.Some?
    ensures TokenBytes(segs, t, SOH) == PieceBytes(segs, Count(t.entry.tag, t.number.value))
  {
  }

  lemma {:induction false} RunGrows(segs: Segments, ps: seq<Piece>, p: Piece, end: nat)
    requires p.Run? && AllPiecesStored(segs, ps + [p]) && p.end <= end <= |segs.Of(p.seg)|
    ensures PieceStored(segs, p.(end := end)) && AllPiecesStored(segs, ps + [p.(end := end)])
    ensures PiecesBytes(segs, ps + [p.(end := end)]) == PiecesBytes(segs, ps + [p]) + segs.Of(p.seg)[p.end..end]
  {
    hide PiecesBytes;
    AllButLast(segs, ps, p);
    PiecesNext(segs, ps, p);
    PiecesNext(segs, ps, p.(end := end));
    SliceGrows(PiecesBytes(segs, ps), segs.Of(p.seg), p.start, p.end, end);
  }

  lemma {:induction false} AllButLast(segs: Segments, ps: seq<Piece>, p: Piece)
    requires AllPiecesStored(segs, ps + [p])
    ensures AllPiecesStored(segs, ps) && PieceStored(segs, p)
  {
    assert forall i :: 0 <= i < |ps| ==> (ps + [p])[i] == ps[i];
    assert (ps + [p])[|ps|] == p;
  }

  lemma {:induction false} SliceGrows(a: seq<Byte>, s: seq<Byte>, i: nat, j: nat, k: nat)
    requires i <= j <= k <= |s|
    ensures a + s[i..k] == a + s[i..j] + s[j..k]
  {
    assert s[i..k] == s[i..j] + s[j..k];
  }

  // ---------------------------------------------------------------------
  // CheckSum
  // ---------------------------------------------------------------------

  function Sum(s: seq<Byte>): nat
    decreases |s|
  {
    if s == [] then 0 else Sum(s[..|s| - 1]) + s[|s| - 1]
  }

  lemma {:induction false} SumAppend(a: seq<Byte>, b: seq<Byte>)
    ensures Sum(a + b) == Sum(a) + Sum(b)
    decreases |b|
  {
    if b == [] {
      assert a + b == a;
    } else {
      assert (a + b)[..|a + b| - 1] == a + b[..|b| - 1];
      SumAppend(a, b[..|b| - 1]);
    }
  }

  /** The sum modulo 256, less what `fields` delimiters count beyond SOH. */
  function SohChecksum(s: seq<Byte>, fields: nat, delimiter: Byte): Byte {
    (Sum(s) % 256 - fields * (delimiter - SOH)) % 256
  }

  /** A field's bytes under any delimiter: as many, and only the delimiter counts differently. */
  lemma {:induction false} TokenDelimited(segs: Segments, t: Token, delimiter: Byte)
    requires Stored(segs, t)
    ensures |TokenBytes(segs, t, delimiter)| == |TokenBytes(segs, t, SOH)|
    ensures Sum(TokenBytes(segs, t, delimiter)) == Sum(TokenBytes(segs, t, SOH)) + (delimiter - SOH)
  {
    hide Digits;
    var a := TokenBytes(segs, t, SOH)[..|TokenBytes(segs, t, SOH)| - 1];
    assert TokenBytes(segs, t, delimiter) == a + [delimiter];
    assert TokenBytes(segs, t, SOH) == a + [SOH];
    assert (a + [delimiter])[..|a|] == a && (a + [SOH])[..|a|] == a;
  }

  /** The body under any delimiter, even one that data fields contain. */
  lemma {:induction false} BodyDelimited(segs: Segments, ts: seq<Token>, delimiter: Byte)
    requires AllStored(segs, ts)
    ensures |BodyBytes(segs, ts, delimiter)| == |BodyBytes(segs, ts, SOH)|
    ensures Sum(BodyBytes(segs, ts, delimiter)) == Sum(BodyBytes(segs, ts, SOH)) + |ts| * (delimiter - SOH)
    decreases |ts|
  {
    if ts != [] {
      hide TokenBytes, Sum;
      var k := |ts| - 1;
      BodyDelimited(segs, ts[..k], delimiter);
      TokenDelimited(segs, ts[k], delimiter);
      SnocDelimited(BodyBytes(segs, ts[..k], delimiter), TokenBytes(segs, ts[k], delimiter),
                    BodyBytes(segs, ts[..k], SOH), TokenBytes(segs, ts[k], SOH), k, delimiter - SOH);
    }
  }

  lemma {:induction false} Scale(k: nat, d: int)
    ensures (k + 1) * d == k * d + d
  {
  }

  lemma {:induction false} SnocDelimited(a: seq<Byte>, x: seq<Byte>, a': seq<Byte>, x': seq<Byte>, k: nat, d: int)
    requires Sum(a) == Sum(a') + k * d && Sum(x) == Sum(x') + d
    ensures Sum(a + x) == Sum(a' + x') + (k + 1) * d
  {
    hide Sum;
    SumAppend(a, x);
    SumAppend(a', x');
    Scale(k, d);
  }

  // ---------------------------------------------------------------------
  // The message
  // ---------------------------------------------------------------------

  /** BeginString and BodyLength. */
  function Prefix(beginString: seq<Byte>, n: nat, delimiter: Byte): seq<Byte> {
    ([56, EQUALS] + beginString + [delimiter]) + ([57, EQUALS] + Digits(n) + [delimiter])
  }

  /** Everything before CheckSum. */
  function Front(segs: Segments, ts: seq<Token>, beginString: seq<Byte>, delimiter: Byte): seq<Byte>
    requires AllStored(segs, ts)
  {
    Prefix(beginString, |BodyBytes(segs, ts, SOH)|, delimiter) + BodyBytes(segs, ts, delimiter)
  }

  function ThreeDigits(c: Byte): seq<Byte> {
    [ZERO + c / 100, ZERO + c / 10 % 10, ZERO + c % 10]
  }

  function CheckSumField(c: Byte, delimiter: Byte): (s: seq<Byte>)
    ensures |s| == 7
  {
    [49, 48, EQUALS] + ThreeDigits(c) + [delimiter]
  }

  /** The message on the wire, or under another delimiter. */
  function Encoded(segs: Segments, ts: seq<Token>, beginString: seq<Byte>, delimiter: Byte): seq<Byte>
    requires AllStored(segs, ts)
  {
    Front(segs, ts, beginString, delimiter) + CheckSumField(Sum(Front(segs, ts, beginString, SOH)) % 256, delimiter)
  }

  lemma {:induction false} PrefixDelimited(beginString: seq<Byte>, n: nat, delimiter: Byte)
    ensures |Prefix(beginString, n, delimiter)| == |Prefix(beginString, n, SOH)|
    ensures Sum(Prefix(beginString, n, delimiter)) == Sum(Prefix(beginString, n, SOH)) + 2 * (delimiter - SOH)
  {
    hide Digits;
    OneDelimited([56, EQUALS] + beginString, delimiter);
    OneDelimited([57, EQUALS] + Digits(n), delimiter);
    SumAppend([56, EQUALS] + beginString + [delimiter], [57, EQUALS] + Digits(n) + [delimiter]);
    SumAppend([56, EQUALS] + beginString + [SOH], [57, EQUALS] + Digits(n) + [SOH]);
  }

  lemma {:induction false} OneDelimited(a: seq<Byte>, delimiter: Byte)
    ensures Sum(a + [delimiter]) == Sum(a + [SOH]) + (delimiter - SOH)
  {
    assert (a + [delimiter])[..|a|] == a && (a + [SOH])[..|a|] == a;
  }

  lemma {:induction false} ModShift(a: int, b: int)
    ensures (a % 256 - b) % 256 == (a - b) % 256
  {
    var q := a / 256;
    assert a == 256 * q + a % 256;
    assert (a - b) == (a % 256 - b) + 256 * q;
  }

  /**
   * The checksum under any delimiter, with each field before CheckSum counted, is the SOH form's,
   * whatever data fields hold. This is what the encoder writes and what the parser checks.
   */
  lemma {:induction false} ChecksumIsTheWires(segs: Segments, ts: seq<Token>, beginString: seq<Byte>, delimiter: Byte)
    requires AllStored(segs, ts)
    ensures SohChecksum(Front(segs, ts, beginString, delimiter), 2 + |ts|, delimiter)
            == Sum(Front(segs, ts, beginString, SOH)) % 256
  {
    hide BodyBytes, Prefix, Sum;
    var n := |BodyBytes(segs, ts, SOH)|;
    BodyDelimited(segs, ts, delimiter);
    PrefixDelimited(beginString, n, delimiter);
    SumAppend(Prefix(beginString, n, delimiter), BodyBytes(segs, ts, delimiter));
    SumAppend(Prefix(beginString, n, SOH), BodyBytes(segs, ts, SOH));
    var a, k := Sum(Front(segs, ts, beginString, delimiter)), (2 + |ts|) * (delimiter - SOH);
    assert a == Sum(Front(segs, ts, beginString, SOH)) + k;
    ModShift(a, k);
  }

  /** BodyLength is the number of bytes between its own delimiter and CheckSum, which takes seven. */
  lemma {:induction false} BodyLengthIsRight(segs: Segments, ts: seq<Token>, beginString: seq<Byte>, delimiter: Byte)
    requires AllStored(segs, ts)
    ensures var n, out := |BodyBytes(segs, ts, SOH)|, Encoded(segs, ts, beginString, delimiter);
            var at := |Prefix(beginString, n, delimiter)|;
            && out[..at] == Prefix(beginString, n, delimiter)
            && at + n + 7 == |out|
            && out[at..at + n] == BodyBytes(segs, ts, delimiter)
            && out[at + n..] == CheckSumField(Sum(Front(segs, ts, beginString, SOH)) % 256, delimiter)
  {
    hide BodyBytes, Prefix, Sum, CheckSumField;
    BodyDelimited(segs, ts, delimiter);
    var a, b := Prefix(beginString, |BodyBytes(segs, ts, SOH)|, delimiter), BodyBytes(segs, ts, delimiter);
    var c := CheckSumField(Sum(Front(segs, ts, beginString, SOH)) % 256, delimiter);
    assert a + b + c == a + (b + c);
  }

  /** The checksum's three digits are read as it. */
  lemma {:induction false} ThreeDigitsRead(c: Byte)
    ensures forall i :: 0 <= i < 3 ==> IsDigit(ThreeDigits(c)[i])
    ensures (ThreeDigits(c)[0] - ZERO) * 100 + (ThreeDigits(c)[1] - ZERO) * 10 + (ThreeDigits(c)[2] - ZERO) == c
  {
  }

  /** The length of the body: that of its pieces. */
  method BodyLength(segs: Segments, ps: seq<Piece>) returns (n: nat)
    requires AllPiecesStored(segs, ps)
    ensures n == |PiecesBytes(segs, ps)|
  {
    hide PieceBytes, PiecesBytes, PieceLen;
    n := 0;
    NoPieces(segs, ps);
    for i := 0 to |ps|
      invariant n == |PiecesBytes(segs, ps[..i])|
    {
      assert ps[..i + 1] == ps[..i] + [ps[i]];
      PiecesNext(segs, ps[..i], ps[i]);
      LenIsRight(segs, ps[i]);
      n := n + PieceLen(ps[i]);
    }
    assert ps[..|ps|] == ps;
  }

  /** Writes `Encoded` behind what the buffer holds. */
  method EncodeDelimited(segs: Segments, ts: seq<Token>, beginString: seq<Byte>, delimiter: Byte, buffer: seq<Byte>)
    returns (out: seq<Byte>)
    requires AllStored(segs, ts)
    ensures out == buffer + Encoded(segs, ts, beginString, delimiter)
  {
    hide BodyBytes, PiecesBytes, Digits, Sum, AllPiecesStored, CheckSumField;
    var ps := Pieces(segs, ts);
    var n := BodyLength(segs, ps);
    out := [56, EQUALS] + beginString + [delimiter] + ([57, EQUALS] + Digits(n) + [delimiter]);
    var fields := 2;
    var body;
    if delimiter == SOH {
      body := CopyPieces(segs, ps);
    } else {
      body := CopyFields(segs, ts, delimiter);
      fields := fields + |ts|;
    }
    out := out + body;
    assert out == Front(segs, ts, beginString, delimiter);
    ChecksumIsTheWires(segs, ts, beginString, delimiter);
    SohNeedsNoCount(out, fields, 2 + |ts|, delimiter);
    var checksum := SohChecksum(out, fields, delimiter);
    out := buffer + (out + CheckSumField(checksum, delimiter));
  }

  lemma {:induction false} SohNeedsNoCount(s: seq<Byte>, fields: nat, fields': nat, delimiter: Byte)
    requires delimiter == SOH || fields == fields'
    ensures SohChecksum(s, fields, delimiter) == SohChecksum(s, fields', delimiter)
  {
  }

  lemma {:induction false} NoPieces(segs: Segments, ps: seq<Piece>)
    ensures PiecesBytes(segs, ps[..0]) == []
  {
  }

  /** A piece's length is known without writing it. */
  lemma {:induction false} LenIsRight(segs: Segments, p: Piece)
    requires PieceStored(segs, p)
    ensures PieceLen(p) == |PieceBytes(segs, p)|
  {
  }

  method CopyPieces(segs: Segments, ps: seq<Piece>) returns (out: seq<Byte>)
    requires AllPiecesStored(segs, ps)
    ensures out == PiecesBytes(segs, ps)
  {
    hide PieceBytes, PiecesBytes;
    out := [];
    NoPieces(segs, ps);
    for i := 0 to |ps|
      invariant out == PiecesBytes(segs, ps[..i])
    {
      assert ps[..i + 1] == ps[..i] + [ps[i]];
      PiecesNext(segs, ps[..i], ps[i]);
      out := out + PieceBytes(segs, ps[i]);
    }
    assert ps[..|ps|] == ps;
  }

  method CopyFields(segs: Segments, ts: seq<Token>, delimiter: Byte) returns (out: seq<Byte>)
    requires AllStored(segs, ts)
    ensures out == BodyBytes(segs, ts, delimiter)
  {
    out := [];
    for i := 0 to |ts|
      invariant out == BodyBytes(segs, ts[..i], delimiter)
    {
      BodyNext(segs, ts, i, delimiter);
      out := out + TokenBytes(segs, ts[i], delimiter);
    }
    assert ts[..|ts|] == ts;
  }
}
