/**
 * Replays (session/replay.rs). A requested range is answered by retransmissions and gap fills; this
 * module says which, for any offers, and proves that together they tile the range.
 */
module Replaying {
  import opened FixMessage

  datatype Range = Range(first: nat, last: nat)

  /** The answer to an offer: out of place, owed a gap fill, or sent again behind what is owed. */
  datatype ReplayStep = Skip | Absorb | Retransmit(gapFill: Option<Range>)

  /** The abstract value of a `Replay`. */
  datatype ReplayView = ReplayView(
    beginSeqNo: nat,
    endSeqNo: nat,
    nextExpected: nat,
    gapFillCount: nat,
    queue: seq<Message>)
  {
    /** What every subtraction below depends on: owed numbers lie inside the requested range. */
    predicate Valid() {
      && 1 <= beginSeqNo
      && beginSeqNo + gapFillCount <= nextExpected
      && (nextExpected == beginSeqNo || nextExpected <= endSeqNo + 1)
    }
  }

  function StartView(beginSeqNo: nat, endSeqNo: nat, nextOut: nat): (r: Option<ReplayView>)
    ensures r.Some? <==> 1 <= beginSeqNo && (endSeqNo == 0 || beginSeqNo <= endSeqNo)
    ensures r.Some? ==> r.value.Valid()
  {
    if endSeqNo > 0 && beginSeqNo > endSeqNo then None
    else if beginSeqNo == 0 then None
    else
      var end := if endSeqNo > 0 then endSeqNo else if nextOut == 0 then 0 else nextOut - 1;
      Some(ReplayView(beginSeqNo, end, beginSeqNo, 0, []))
  }

  function OfferStep(r: ReplayView, n: nat, gapFilled: bool): (step: ReplayStep)
    requires r.Valid()
    ensures step.Retransmit? && step.gapFill.Some? ==>
              r.beginSeqNo <= step.gapFill.value.first <= step.gapFill.value.last < n
  {
    if n < r.nextExpected || n > r.endSeqNo then Skip
    else if gapFilled then Absorb
    else
      var owed := r.gapFillCount + (n - r.nextExpected);
      Retransmit(if owed > 0 then Some(Range(n - owed, n - 1)) else None)
  }

  function OfferView(r: ReplayView, n: nat, gapFilled: bool): (r': ReplayView)
    requires r.Valid()
    ensures r'.Valid()
    ensures r'.beginSeqNo == r.beginSeqNo && r'.endSeqNo == r.endSeqNo && r'.queue == r.queue
  {
    if n < r.nextExpected || n > r.endSeqNo then r
    else if gapFilled then
      r.(nextExpected := n + 1, gapFillCount := r.gapFillCount + (n - r.nextExpected) + 1)
    else
      r.(nextExpected := n + 1, gapFillCount := 0)
  }

  function TrailingGapFill(r: ReplayView): (fill: Option<Range>)
    requires r.Valid()
    ensures fill.Some? ==> r.beginSeqNo <= fill.value.first <= fill.value.last == r.endSeqNo
  {
    var begin := r.nextExpected - r.gapFillCount;
    if begin <= r.endSeqNo then Some(Range(begin, r.endSeqNo)) else None
  }

  class Replay {
    const beginSeqNo: nat
    const endSeqNo: nat
    var nextExpected: nat
    var gapFillCount: nat
    var queue: seq<Message>

    ghost function View(): ReplayView
      reads this
    {
      ReplayView(beginSeqNo, endSeqNo, nextExpected, gapFillCount, queue)
    }

    constructor (beginSeqNo: nat, endSeqNo: nat)
      ensures View() == ReplayView(beginSeqNo, endSeqNo, beginSeqNo, 0, [])
    {
      this.beginSeqNo, this.endSeqNo := beginSeqNo, endSeqNo;
      nextExpected, gapFillCount, queue := beginSeqNo, 0, [];
    }

    /** Begin a replay; `null` is the protocol violation the source reports. */
    static method Start(beginSeqNo: nat, endSeqNo: nat, nextOut: nat) returns (r: Replay?)
      ensures r == null <==> StartView(beginSeqNo, endSeqNo, nextOut).None?
      ensures r != null ==> fresh(r) && Some(r.View()) == StartView(beginSeqNo, endSeqNo, nextOut)
    {
      if endSeqNo > 0 && beginSeqNo > endSeqNo {
        return null;
      }
      if beginSeqNo == 0 {
        return null;
      }
      var end := endSeqNo;
      if end == 0 && nextOut > 0 {
        end := nextOut - 1;
      }
      r := new Replay(beginSeqNo, end);
    }

    /** `msg` joins the end of the queue. */
    method Defer(msg: Message)
      modifies this`queue
      ensures queue == old(queue) + [msg]
    {
      queue := queue + [msg];
    }

    /** The queue as it was; it is empty after. */
    method TakeQueue() returns (taken: seq<Message>)
      modifies this`queue
      ensures taken == old(queue) && queue == []
    {
      taken := queue;
      queue := [];
    }

    /** `OfferStep` and `OfferView`, on the fields. */
    method Offer(n: nat, gapFilled: bool) returns (step: ReplayStep)
      requires View().Valid()
      modifies this`nextExpected, this`gapFillCount
      ensures step == OfferStep(old(View()), n, gapFilled)
      ensures View() == OfferView(old(View()), n, gapFilled)
    {
      if n < nextExpected {
        return Skip;
      }
      if n > endSeqNo {
        return Skip;
      }
      gapFillCount := gapFillCount + (n - nextExpected);
      nextExpected := n + 1;
      if gapFilled {
        gapFillCount := gapFillCount + 1;
        return Absorb;
      }
      var gapFill := None;
      if gapFillCount > 0 {
        var firstSkipped := nextExpected - gapFillCount - 1;
        gapFill := Some(Range(firstSkipped, n - 1));
      }
      gapFillCount := 0;
      return Retransmit(gapFill);
    }

    method Trailing() returns (fill: Option<Range>)
      requires View().Valid()
      ensures fill == TrailingGapFill(View())
    {
      var begin := nextExpected - gapFillCount;
      if begin <= endSeqNo {
        fill := Some(Range(begin, endSeqNo));
      } else {
        fill := None;
      }
    }
  }

  // ---------------------------------------------------------------------
  // Whole replays
  // ---------------------------------------------------------------------

  /** A stretch of sequence numbers: one a gap fill covers, or that of a single message. */
  datatype Piece = Fill(range: Range) | Single(n: nat)
  {
    function First(): nat {
      if Fill? then range.first else n
    }

    function Last(): nat {
      if Fill? then range.last else n
    }

    predicate Covers(k: nat) {
      First() <= k <= Last()
    }
  }

  datatype Offer = Offer(n: nat, gapFilled: bool)

  function FillPieces(fill: Option<Range>): seq<Piece> {
    if fill.Some? then [Fill(fill.value)] else []
  }

  function StepPieces(step: ReplayStep, n: nat): seq<Piece> {
    if step.Retransmit? then FillPieces(step.gapFill) + [Single(n)] else []
  }

  /** The replay after these offers. */
  function AfterOffers(r: ReplayView, offers: seq<Offer>): (r': ReplayView)
    requires r.Valid()
    ensures r'.Valid()
    ensures r'.beginSeqNo == r.beginSeqNo && r'.endSeqNo == r.endSeqNo && r'.queue == r.queue
  {
    if offers == [] then r
    else
      var last := offers[|offers| - 1];
      OfferView(AfterOffers(r, offers[..|offers| - 1]), last.n, last.gapFilled)
  }

  /** Everything sent while these offers are made. */
  function OfferedPieces(r: ReplayView, offers: seq<Offer>): seq<Piece>
    requires r.Valid()
  {
    if offers == [] then []
    else
      var before, last := offers[..|offers| - 1], offers[|offers| - 1];
      OfferedPieces(r, before) + StepPieces(OfferStep(AfterOffers(r, before), last.n, last.gapFilled), last.n)
  }

  /** Everything a replay sends: what the offers led to, and the trailing gap fill. */
  function ReplayOutput(r: ReplayView, offers: seq<Offer>): seq<Piece>
    requires r.Valid()
  {
    OfferedPieces(r, offers) + FillPieces(TrailingGapFill(AfterOffers(r, offers)))
  }

  /** The pieces lie end to end from `lo` up to, not including, `hi`. */
  ghost predicate Tiles(pieces: seq<Piece>, lo: nat, hi: nat) {
    if pieces == [] then lo == hi
    else
      && pieces[0].First() == lo <= pieces[0].Last()
      && Tiles(pieces[1..], pieces[0].Last() + 1, hi)
  }

  lemma {:induction false} TilesAppend(a: seq<Piece>, b: seq<Piece>, lo: nat, mid: nat, hi: nat)
    requires Tiles(a, lo, mid) && Tiles(b, mid, hi)
    ensures Tiles(a + b, lo, hi)
  {
    if a == [] {
      assert a + b == b;
    } else {
      assert (a + b)[1..] == a[1..] + b;
      TilesAppend(a[1..], b, a[0].Last() + 1, mid, hi);
    }
  }

  lemma {:induction false} TilesSplit(a: seq<Piece>, b: seq<Piece>, lo: nat, hi: nat) returns (mid: nat)
    requires Tiles(a + b, lo, hi)
    ensures lo <= mid <= hi && Tiles(a, lo, mid) && Tiles(b, mid, hi)
  {
    if a == [] {
      assert a + b == b;
      TilesBounds(b, lo, hi);
      mid := lo;
    } else {
      assert (a + b)[1..] == a[1..] + b;
      mid := TilesSplit(a[1..], b, a[0].Last() + 1, hi);
    }
  }

  lemma {:induction false} TilesBounds(pieces: seq<Piece>, lo: nat, hi: nat)
    requires Tiles(pieces, lo, hi)
    ensures lo <= hi
    ensures forall i :: 0 <= i < |pieces| ==> lo <= pieces[i].First() <= pieces[i].Last() < hi
  {
    if pieces != [] {
      TilesBounds(pieces[1..], pieces[0].Last() + 1, hi);
      assert forall i :: 1 <= i < |pieces| ==> pieces[i] == pieces[1..][i - 1];
    }
  }

  /** How many of the pieces cover `k`. */
  function Cover(pieces: seq<Piece>, k: nat): nat {
    if pieces == [] then 0
    else (if pieces[0].Covers(k) then 1 else 0) + Cover(pieces[1..], k)
  }

  /** Pieces laid end to end cover each number of the range once, and no other number. */
  lemma {:induction false} TilesCoverOnce(pieces: seq<Piece>, lo: nat, hi: nat, k: nat)
    requires Tiles(pieces, lo, hi)
    ensures Cover(pieces, k) == if lo <= k < hi then 1 else 0
  {
    TilesBounds(pieces, lo, hi);
    if pieces != [] {
      TilesCoverOnce(pieces[1..], pieces[0].Last() + 1, hi, k);
      TilesBounds(pieces[1..], pieces[0].Last() + 1, hi);
    }
  }

  /** At any moment, what has been sent runs up to the first number still owed a gap fill. */
  lemma {:induction false} OfferedTiles(r: ReplayView, offers: seq<Offer>)
    requires r.Valid() && r.nextExpected == r.beginSeqNo
    ensures var now := AfterOffers(r, offers);
            Tiles(OfferedPieces(r, offers), r.beginSeqNo, now.nextExpected - now.gapFillCount)
  {
    if offers != [] {
      var before, last := offers[..|offers| - 1], offers[|offers| - 1];
      OfferedTiles(r, before);
      var mid := AfterOffers(r, before);
      OfferTiles(mid, last.n, last.gapFilled);
      var end := OfferView(mid, last.n, last.gapFilled);
      TilesAppend(OfferedPieces(r, before), StepPieces(OfferStep(mid, last.n, last.gapFilled), last.n),
                  r.beginSeqNo, mid.nextExpected - mid.gapFillCount, end.nextExpected - end.gapFillCount);
    }
  }

  lemma {:induction false} OfferTiles(r: ReplayView, n: nat, gapFilled: bool)
    requires r.Valid()
    ensures var r' := OfferView(r, n, gapFilled);
            Tiles(StepPieces(OfferStep(r, n, gapFilled), n), r.nextExpected - r.gapFillCount,
                  r'.nextExpected - r'.gapFillCount)
  {
  }

  /**
   * Whatever is offered — out of range, repeated, out of order, session or application — a replay
   * covers the numbers asked for once through, in order: up to the last one asked for, or with the end
   * left open up to the last one sent.
   */
  lemma {:induction false} ReplayTiling(beginSeqNo: nat, endSeqNo: nat, nextOut: nat, offers: seq<Offer>)
    requires StartView(beginSeqNo, endSeqNo, nextOut).Some?
    ensures var r := StartView(beginSeqNo, endSeqNo, nextOut).value;
            && Tiles(ReplayOutput(r, offers), beginSeqNo,
                     if endSeqNo > 0 then endSeqNo + 1 else Max(beginSeqNo, nextOut))
            && (endSeqNo == 0 && nextOut <= beginSeqNo ==> ReplayOutput(r, offers) == [])
  {
    var r := StartView(beginSeqNo, endSeqNo, nextOut).value;
    OutputTiles(r, offers);
    if endSeqNo == 0 && nextOut <= beginSeqNo {
      TilesBounds(ReplayOutput(r, offers), beginSeqNo, beginSeqNo);
    }
  }

  lemma {:induction false} OutputTiles(r: ReplayView, offers: seq<Offer>)
    requires r.Valid() && r.nextExpected == r.beginSeqNo
    ensures Tiles(ReplayOutput(r, offers), r.beginSeqNo, Max(r.beginSeqNo, r.endSeqNo + 1))
  {
    OfferedTiles(r, offers);
    var now := AfterOffers(r, offers);
    TrailingTiles(now);
    TilesAppend(OfferedPieces(r, offers), FillPieces(TrailingGapFill(now)), r.beginSeqNo,
                now.nextExpected - now.gapFillCount, Max(r.beginSeqNo, r.endSeqNo + 1));
  }

  lemma {:induction false} TrailingTiles(r: ReplayView)
    requires r.Valid()
    ensures Tiles(FillPieces(TrailingGapFill(r)), r.nextExpected - r.gapFillCount,
                  Max(r.beginSeqNo, r.endSeqNo + 1))
  {
  }

  // ---------------------------------------------------------------------
  // Which messages are retransmitted
  // ---------------------------------------------------------------------

  /** Offer `i` is in the range and beyond every offer in the range made before it. */
  ghost predicate IsRecord(lo: nat, hi: nat, offers: seq<Offer>, i: nat)
    requires i < |offers|
  {
    && lo <= offers[i].n <= hi
    && forall j :: 0 <= j < i && lo <= offers[j].n <= hi ==> offers[j].n < offers[i].n
  }

  /** The records that are not session messages, in the order they were offered. */
  ghost function RecordsToResend(lo: nat, hi: nat, offers: seq<Offer>): seq<nat> {
    if offers == [] then []
    else
      var last := |offers| - 1;
      RecordsToResend(lo, hi, offers[..last])
      + if IsRecord(lo, hi, offers, last) && !offers[last].gapFilled then [offers[last].n] else []
  }

  function Resent(pieces: seq<Piece>): seq<nat> {
    if pieces == [] then []
    else
      var last := pieces[|pieces| - 1];
      Resent(pieces[..|pieces| - 1]) + if last.Single? then [last.n] else []
  }

  lemma {:induction false} ResentAppend(a: seq<Piece>, b: seq<Piece>)
    ensures Resent(a + b) == Resent(a) + Resent(b)
  {
    if b == [] {
      assert a + b == a;
    } else {
      assert (a + b)[..|a + b| - 1] == a + b[..|b| - 1];
      ResentAppend(a, b[..|b| - 1]);
    }
  }

  /** The cursor is one past the greatest in-range offer so far. */
  lemma {:induction false} CursorIsRecord(r: ReplayView, offers: seq<Offer>)
    requires r.Valid() && r.nextExpected == r.beginSeqNo
    ensures var now := AfterOffers(r, offers);
            && r.beginSeqNo <= now.nextExpected
            && (forall j :: 0 <= j < |offers| && r.beginSeqNo <= offers[j].n <= r.endSeqNo
                            ==> offers[j].n < now.nextExpected)
            && (now.nextExpected > r.beginSeqNo ==>
                  exists j :: 0 <= j < |offers| && offers[j].n + 1 == now.nextExpected
                              && offers[j].n <= r.endSeqNo)
  {
    if offers != [] {
      var before := offers[..|offers| - 1];
      CursorIsRecord(r, before);
      var mid, now, last := AfterOffers(r, before), AfterOffers(r, offers), offers[|offers| - 1];
      if now.nextExpected != mid.nextExpected {
        assert offers[|offers| - 1].n + 1 == now.nextExpected;
      } else if now.nextExpected > r.beginSeqNo {
        var j :| 0 <= j < |before| && before[j].n + 1 == mid.nextExpected && before[j].n <= r.endSeqNo;
        assert offers[j] == before[j];
      }
    }
  }

  /** A message is retransmitted exactly when it is a record and not gap filled. */
  lemma {:induction false} ResentAreRecords(r: ReplayView, offers: seq<Offer>)
    requires r.Valid() && r.nextExpected == r.beginSeqNo
    ensures Resent(ReplayOutput(r, offers)) == RecordsToResend(r.beginSeqNo, r.endSeqNo, offers)
  {
    OfferedAreRecords(r, offers);
    ResentAppend(OfferedPieces(r, offers), FillPieces(TrailingGapFill(AfterOffers(r, offers))));
  }

  /** What lies at or past the cursor is a record. */
  lemma {:induction false} PastCursor(r: ReplayView, offers: seq<Offer>)
    requires r.Valid() && r.nextExpected == r.beginSeqNo && offers != []
    ensures var last := |offers| - 1;
            AfterOffers(r, offers[..last]).nextExpected <= offers[last].n <= r.endSeqNo
            <==> IsRecord(r.beginSeqNo, r.endSeqNo, offers, last)
  {
    hide AfterOffers;
    var last := |offers| - 1;
    CursorIsRecord(r, offers[..last]);
    assert forall j :: 0 <= j < last ==> offers[..last][j] == offers[j];
  }

  lemma {:induction false} OfferedAreRecords(r: ReplayView, offers: seq<Offer>)
    requires r.Valid() && r.nextExpected == r.beginSeqNo
    ensures Resent(OfferedPieces(r, offers)) == RecordsToResend(r.beginSeqNo, r.endSeqNo, offers)
  {
    if offers != [] {
      var last := |offers| - 1;
      var before, mid := offers[..last], AfterOffers(r, offers[..last]);
      OfferedAreRecords(r, before);
      var step := OfferStep(mid, offers[last].n, offers[last].gapFilled);
      ResentAppend(OfferedPieces(r, before), StepPieces(step, offers[last].n));
      PastCursor(r, offers);
      hide IsRecord, AfterOffers, OfferStep, StepPieces;
      StepResent(mid, offers[last].n, offers[last].gapFilled);
    }
  }

  lemma {:induction false} StepResent(r: ReplayView, n: nat, gapFilled: bool)
    requires r.Valid()
    ensures Resent(StepPieces(OfferStep(r, n, gapFilled), n))
            == if r.nextExpected <= n <= r.endSeqNo && !gapFilled then [n] else []
  {
    var step := OfferStep(r, n, gapFilled);
    if step.Retransmit? {
      ResentAppend(FillPieces(step.gapFill), [Single(n)]);
    }
  }
}
