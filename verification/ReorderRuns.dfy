/** Whole runs of a reorder window whose `release` always continues. */
module ReorderRuns {
  import opened FixMessage
  import opened Session
  import opened Reordering

  ghost predicate Willing(verdicts: Verdicts) {
    forall k :: verdicts(k) == Continue
  }

  /** Whether a message is held: once, or not at all. */
  ghost function Holds(v: WindowView, msg: Message): nat {
    if msg.seqNum.Some? && msg.seqNum.value in v.held && v.held[msg.seqNum.value].msg == msg then 1 else 0
  }

  /** What was held is either released or still held. */
  ghost predicate Moves(v: WindowView, released: seq<Message>, v': WindowView) {
    forall msg :: Holds(v, msg) == multiset(released)[msg] + Holds(v', msg)
  }

  /** Messages numbered in increasing order, from `lo` up to, not including, `hi`. */
  ghost predicate Sorted(msgs: seq<Message>, lo: nat, hi: nat) {
    && (forall i :: 0 <= i < |msgs| ==> msgs[i].seqNum.Some? && lo <= msgs[i].seqNum.value < hi)
    && (forall i, j :: 0 <= i < j < |msgs| ==> msgs[i].seqNum.value < msgs[j].seqNum.value)
  }

  lemma {:induction false} SortedAppend(a: seq<Message>, b: seq<Message>, lo: nat, mid: nat, hi: nat)
    requires Sorted(a, lo, mid) && Sorted(b, mid, hi) && lo <= mid <= hi
    ensures Sorted(a + b, lo, hi)
  {
  }

  lemma {:induction false} MovesThen(v: WindowView, a: seq<Message>, mid: WindowView, b: seq<Message>, v': WindowView)
    requires Moves(v, a, mid) && Moves(mid, b, v')
    ensures Moves(v, a + b, v')
  {
    forall msg
      ensures Holds(v, msg) == multiset(a + b)[msg] + Holds(v', msg)
    {
      assert Holds(v, msg) == multiset(a)[msg] + Holds(mid, msg);
      assert Holds(mid, msg) == multiset(b)[msg] + Holds(v', msg);
    }
  }

  /** Every message is held under its own number. */
  ghost predicate Labelled(v: WindowView) {
    forall n :: n in v.held ==> v.held[n].msg.seqNum == Some(n)
  }

  lemma {:induction false} OneMoves(v: WindowView, n: nat)
    requires Labelled(v) && n in v.held
    ensures Moves(v, [v.held[n].msg], v.(held := v.held - {n}))
  {
    var v', gone := v.(held := v.held - {n}), v.held[n].msg;
    forall msg
      ensures Holds(v, msg) == multiset([gone])[msg] + Holds(v', msg)
    {
      if msg.seqNum.Some? && msg.seqNum.value != n {
        assert msg != gone;
      }
    }
  }

  lemma {:induction false} NoneMoves(v: WindowView, v': WindowView)
    requires v'.held == v.held
    ensures Moves(v, [], v')
  {
  }

  // ---------------------------------------------------------------------
  // The pieces
  // ---------------------------------------------------------------------

  /** Of what was held, the numbers from `lo` up to, not including, `hi` are gone, and no others. */
  ghost predicate Cut(v: WindowView, lo: nat, hi: nat, v': WindowView) {
    && (forall n :: n in v'.held <==> n in v.held && !(lo <= n < hi))
    && (forall n :: n in v'.held ==> v'.held[n] == v.held[n])
  }

  lemma {:induction false} CutOne(v: WindowView, n: nat, hi: nat, v1: WindowView, v': WindowView)
    requires v1.held == v.held - {n} && n < hi && Cut(v1, n + 1, hi, v')
    ensures Cut(v, n, hi, v')
  {
  }

  lemma {:induction false} CutNone(v: WindowView, n: nat, hi: nat, v': WindowView)
    requires n !in v.held && Cut(v, n + 1, hi, v')
    ensures Cut(v, n, hi, v')
  {
  }

  /** One message released, and then the rest: together they are in order, and account for what was held. */
  lemma {:induction false} ReleaseOneThen(v: WindowView, n: nat, v1: WindowView, rest: seq<Message>, hi: nat,
                                          v': WindowView)
    requires Labelled(v) && n in v.held && n < hi && v1.held == v.held - {n}
    requires Moves(v1, rest, v') && Sorted(rest, n + 1, hi)
    ensures Labelled(v1)
    ensures Moves(v, [v.held[n].msg] + rest, v') && Sorted([v.held[n].msg] + rest, n, hi)
  {
    OneMoves(v, n);
    MovesNext(v.(held := v.held - {n}), v1, rest, v');
    MovesThen(v, [v.held[n].msg], v.(held := v.held - {n}), rest, v');
    SortedAppend([v.held[n].msg], rest, n, n + 1, hi);
  }

  /** What a release of part of the window amounts to. */
  ghost predicate Part(v: WindowView, lo: nat, hi: nat, r: WindowStep) {
    r.outcome == Continue && Sorted(r.released, lo, hi) && Moves(v, r.released, r.v) && Cut(v, lo, hi, r.v)
  }

  lemma {:induction false} PartNone(v: WindowView, n: nat)
    ensures Part(v, n, n, WindowStep(v, [], Continue))
  {
    NoneMoves(v, v);
  }

  lemma {:induction false} PartOneMore(v: WindowView, n: nat, hi: nat, v1: WindowView, rest: WindowStep)
    requires Labelled(v) && n in v.held && n < hi && v1.held == v.held - {n} && Part(v1, n + 1, hi, rest)
    ensures Part(v, n, hi, WindowStep(rest.v, [v.held[n].msg] + rest.released, Continue))
  {
    ReleaseOneThen(v, n, v1, rest.released, hi, rest.v);
    CutOne(v, n, hi, v1, rest.v);
  }

  lemma {:induction false} PartSkip(v: WindowView, n: nat, hi: nat, rest: WindowStep)
    requires n !in v.held && Part(v, n + 1, hi, rest)
    ensures Part(v, n, hi, rest)
  {
    Lower(rest.released, n, hi);
    CutNone(v, n, hi, rest.v);
  }

  lemma {:induction false} RunTakes(v: WindowView, verdicts: Verdicts, k: nat)
    requires Willing(verdicts) && v.next.Some?
    ensures var n := v.next.value;
            var rest := ReleaseRun(v.(held := v.held - {n}, next := Some(n + 1)), verdicts, k + 1);
            ReleaseRun(v, verdicts, k)
            == if n in v.held then WindowStep(rest.v, [v.held[n].msg] + rest.released, rest.outcome)
               else WindowStep(v, [], Continue)
  {
    hide ReleaseRun;
    RunUnfolds(v, verdicts, k);
  }

  lemma {:induction false} BetweenTakes(v: WindowView, lo: nat, hi: nat, verdicts: Verdicts, k: nat)
    requires Willing(verdicts) && lo <= hi
    ensures var rest := ReleaseBetween(v.(held := v.held - {lo}), lo + 1, hi, verdicts, k + 1);
            ReleaseBetween(v, lo, hi, verdicts, k)
            == if lo in v.held then WindowStep(rest.v, [v.held[lo].msg] + rest.released, rest.outcome)
               else ReleaseBetween(v, lo + 1, hi, verdicts, k)
  {
    hide ReleaseBetween;
    BetweenUnfolds(v, lo, hi, verdicts, k);
  }

  /** A run takes consecutive numbers from `next` on, and stops at the first one missing. */
  lemma {:induction false} RunReleases(v: WindowView, verdicts: Verdicts, k: nat)
    requires Willing(verdicts) && Labelled(v) && v.next.Some?
    ensures var r := ReleaseRun(v, verdicts, k);
            && r.v.next.Some? && v.next.value <= r.v.next.value && r.v.next.value !in r.v.held
            && Part(v, v.next.value, r.v.next.value, r)
    decreases |v.held|
  {
    hide ReleaseRun, Part, Labelled, Willing;
    var n := v.next.value;
    RunTakes(v, verdicts, k);
    if n !in v.held {
      PartNone(v, n);
    } else {
      Shrinks(v.held, n);
      var v1 := v.(held := v.held - {n}, next := Some(n + 1));
      LabelledLess(v, n, v1);
      RunReleases(v1, verdicts, k + 1);
      var rest := ReleaseRun(v1, verdicts, k + 1);
      PartContinues(v1, n + 1, rest.v.next.value, rest);
      PartOneMore(v, n, rest.v.next.value, v1, rest);
    }
  }

  lemma {:induction false} PartContinues(v: WindowView, lo: nat, hi: nat, r: WindowStep)
    requires Part(v, lo, hi, r)
    ensures r.outcome == Continue
  {
  }

  lemma {:induction false} MovesNext(v: WindowView, v1: WindowView, released: seq<Message>, v': WindowView)
    requires v1.held == v.held && Moves(v1, released, v')
    ensures Moves(v, released, v')
  {
    forall msg
      ensures Holds(v, msg) == multiset(released)[msg] + Holds(v', msg)
    {
      assert Holds(v1, msg) == Holds(v, msg);
    }
  }

  lemma {:induction false} BetweenReleases(v: WindowView, lo: nat, hi: nat, verdicts: Verdicts, k: nat)
    requires Willing(verdicts) && Labelled(v) && lo <= hi + 1
    ensures Part(v, lo, hi + 1, ReleaseBetween(v, lo, hi, verdicts, k))
    decreases hi + 1 - lo
  {
    hide ReleaseBetween, Part, Labelled, Willing;
    if lo > hi {
      BetweenPast(v, lo, hi, verdicts, k);
      PartNone(v, lo);
    } else {
      BetweenTakes(v, lo, hi, verdicts, k);
      var v1 := v.(held := v.held - {lo});
      if lo !in v.held {
        BetweenReleases(v, lo + 1, hi, verdicts, k);
        PartSkip(v, lo, hi + 1, ReleaseBetween(v, lo + 1, hi, verdicts, k));
      } else {
        LabelledLess(v, lo, v1);
        BetweenReleases(v1, lo + 1, hi, verdicts, k + 1);
        var rest := ReleaseBetween(v1, lo + 1, hi, verdicts, k + 1);
        PartContinues(v1, lo + 1, hi + 1, rest);
        PartOneMore(v, lo, hi + 1, v1, rest);
      }
    }
  }

  lemma {:induction false} Lower(msgs: seq<Message>, lo: nat, hi: nat)
    requires Sorted(msgs, lo + 1, hi)
    ensures Sorted(msgs, lo, hi)
  {
  }

  lemma {:induction false} LabelledLess(v: WindowView, n: nat, v1: WindowView)
    requires Labelled(v) && v1.held == v.held - {n}
    ensures Labelled(v1)
  {
  }

  /** What a call releases comes in order, from `next` up to where `next` ends. */
  ghost predicate Releases(v: WindowView, r: WindowStep) {
    && r.outcome == Continue && r.v.len == v.len && r.v.maxWait == v.maxWait
    && InRange(r.v)
    && Moves(v, r.released, r.v)
    && v.next.Some? && r.v.next.Some? && v.next.value <= r.v.next.value
    && Sorted(r.released, v.next.value, r.v.next.value)
  }

  lemma {:induction false} ReleasesThen(v: WindowView, r: WindowStep, mid: WindowView, r': WindowStep)
    requires Releases(v, r) && Releases(mid, r')
    requires mid == r.v
    ensures Releases(v, WindowStep(r'.v, r.released + r'.released, r'.outcome))
  {
    SortedAppend(r.released, r'.released, v.next.value, mid.next.value, r'.v.next.value);
    MovesThen(v, r.released, mid, r'.released, r'.v);
  }

  lemma {:induction false} RunInRange(v: WindowView, verdicts: Verdicts, k: nat)
    requires Willing(verdicts) && InRange(v) && v.next.Some?
    ensures Releases(v, ReleaseRun(v, verdicts, k))
    ensures forall n :: n in ReleaseRun(v, verdicts, k).v.held ==>
              n in v.held && ReleaseRun(v, verdicts, k).v.held[n] == v.held[n]
  {
    RunReleases(v, verdicts, k);
    hide ReleaseRun, Moves, Sorted;
  }

  /** Giving up on everything through `t`: what is held at or below it goes, and `next` moves past it. */
  lemma {:induction false} GiveUpThrough(v: WindowView, t: nat, verdicts: Verdicts, k: nat)
    requires Willing(verdicts) && InRange(v) && v.next.Some?
    requires v.next.value <= t <= v.next.value + v.len
    ensures var r := ReleaseThrough(v, t, verdicts, k);
            && Releases(v, WindowStep(r.v.(next := Some(t + 1)), r.released, r.outcome))
            && (forall n :: n in r.v.held ==> n > t && n in v.held && r.v.held[n] == v.held[n])
  {
    BetweenReleases(v, v.next.value, t, verdicts, k);
    hide ReleaseBetween, Sorted;
    var r := ReleaseThrough(v, t, verdicts, k);
    MovesOn(v, r.released, r.v, r.v.(next := Some(t + 1)));
  }

  lemma {:induction false} MovesOn(v: WindowView, released: seq<Message>, mid: WindowView, v': WindowView)
    requires Moves(v, released, mid) && v'.held == mid.held
    ensures Moves(v, released, v')
  {
    forall msg
      ensures Holds(v, msg) == multiset(released)[msg] + Holds(v', msg)
    {
      assert Holds(mid, msg) == Holds(v', msg);
    }
  }

  /** Once what has expired has been given up on, nothing held has expired. */
  lemma {:induction false} ExpireReleases(v: WindowView, now: nat, verdicts: Verdicts, k: nat)
    requires Willing(verdicts) && InRange(v)
    ensures var r := Expire(v, now, verdicts, k);
            && (v.next.Some? ==> Releases(v, r))
            && (v.next.None? ==> r == WindowStep(v, [], Continue))
            && Expired(r.v, now) == {}
  {
    if Expired(v, now) == {} {
      NoneMoves(v, v);
    } else {
      var t := Greatest(Expired(v, now));
      assert v.next.Some? && v.next.value <= t <= v.next.value + v.len;
      ExpireThrough(v, t, now, verdicts, k);
    }
  }

  lemma {:induction false} ExpireThrough(v: WindowView, t: nat, now: nat, verdicts: Verdicts, k: nat)
    requires Willing(verdicts) && InRange(v) && v.next.Some? && IsGreatest(t, Expired(v, now))
    requires v.next.value <= t <= v.next.value + v.len
    ensures var r := ReleaseThrough(v, t, verdicts, k);
            var run := ReleaseRun(r.v.(next := Some(t + 1)), verdicts, k + |r.released|);
            && r.outcome == Continue
            && Releases(v, WindowStep(run.v, r.released + run.released, run.outcome))
            && Expired(run.v, now) == {}
  {
    hide ReleaseThrough, ReleaseRun, InRange, Moves, Sorted, IsGreatest;
    GiveUpThrough(v, t, verdicts, k);
    var r := ReleaseThrough(v, t, verdicts, k);
    var v1 := r.v.(next := Some(t + 1));
    RunInRange(v1, verdicts, k + |r.released|);
    var run := ReleaseRun(v1, verdicts, k + |r.released|);
    ReleasesThen(v, WindowStep(v1, r.released, r.outcome), v1, run);
    forall n | n in run.v.held
      ensures run.v.held[n].expires > now
    {
      assert n in r.v.held && n > t;
      GreatestAbove(t, Expired(v, now), n);
    }
  }

  lemma {:induction false} GreatestAbove(t: nat, s: set<nat>, n: nat)
    requires IsGreatest(t, s) && n > t
    ensures n !in s
  {
  }

  // ---------------------------------------------------------------------
  // Offers
  // ---------------------------------------------------------------------

  /** The one offer that upsets a window: the number it expects, while it holds a message under that very number. */
  predicate Repeats(v: WindowView, msg: Message) {
    Usable(msg) && v.len > 0 && v.next == msg.seqNum && msg.seqNum.value in v.held
  }

  /** What becomes of an offered message, with everything else that was held. */
  ghost predicate Settles(v: WindowView, msg: Message, o: OfferStep) {
    && InRange(o.step.v) && o.step.v.len == v.len && o.step.v.maxWait == v.maxWait
    && o.step.outcome == Continue
    && (forall m :: Holds(v, m) + multiset([msg])[m]
                    == multiset(o.step.released)[m] + Holds(o.step.v, m) + if o.late then multiset([msg])[m] else 0)
    && (v.next.Some? ==> o.step.v.next.Some? && v.next.value <= o.step.v.next.value
                         && Sorted(o.step.released, v.next.value, o.step.v.next.value))
    && (v.next.None? ==> !o.late && o.step.released == [msg] && msg.seqNum.Some?
                         && o.step.v.next == Some(msg.seqNum.value + 1))
  }

  lemma {:induction false} SettleReleased(v: WindowView, msg: Message, first: WindowStep, v1: WindowView,
                                          rest: WindowStep)
    requires v.next.Some? && msg.seqNum.Some?
    requires Releases(v, first) && Usable(msg) && msg.seqNum.value >= first.v.next.value
    requires v1 == first.v.(next := Some(msg.seqNum.value + 1)) && Releases(v1, rest)
    ensures Settles(v, msg, OfferStep(WindowStep(rest.v, first.released + [msg] + rest.released, Continue), false))
  {
    var n := msg.seqNum.value;
    assert Sorted([msg], n, n + 1);
    SortedAppend(first.released, [msg], v.next.value, n, n + 1) by { Widen(first.released, v.next.value, first.v.next.value, n); }
    SortedAppend(first.released + [msg], rest.released, v.next.value, n + 1, rest.v.next.value);
    forall m
      ensures Holds(v, m) + multiset([msg])[m] == multiset(first.released + [msg] + rest.released)[m] + Holds(rest.v, m)
    {
      assert Holds(v, m) == multiset(first.released)[m] + Holds(first.v, m);
      assert Holds(v1, m) == multiset(rest.released)[m] + Holds(rest.v, m);
      assert Holds(v1, m) == Holds(first.v, m);
    }
  }

  lemma {:induction false} Widen(msgs: seq<Message>, lo: nat, hi: nat, hi': nat)
    requires Sorted(msgs, lo, hi) && hi <= hi'
    ensures Sorted(msgs, lo, hi')
  {
  }

  /** The run behind the message that was expected, and then what has expired. */
  lemma {:induction false} NextReleases(v: WindowView, now: nat, verdicts: Verdicts, k: nat)
    requires Willing(verdicts) && InRange(v) && v.next.Some?
    ensures var run := ReleaseRun(v, verdicts, k);
            var e := Expire(run.v, now, verdicts, k + |run.released|);
            && run.outcome == Continue && e.outcome == Continue
            && Releases(v, WindowStep(e.v, run.released + e.released, Continue))
  {
    hide ReleaseRun, Expire, Moves, Sorted;
    RunInRange(v, verdicts, k);
    var run := ReleaseRun(v, verdicts, k);
    ExpireReleases(run.v, now, verdicts, k + |run.released|);
    ReleasesThen(v, run, run.v, Expire(run.v, now, verdicts, k + |run.released|));
  }

  lemma {:induction false} NextSettles(v: WindowView, msg: Message, now: nat, verdicts: Verdicts, k: nat)
    requires Willing(verdicts) && InRange(v) && v.len > 0 && Usable(msg) && v.next == msg.seqNum
    requires !Repeats(v, msg)
    ensures Settles(v, msg, OfferStep(OfferNext(v, msg, now, verdicts, k), false))
  {
    hide ReleaseRun, Expire, OfferNext, Settles, Moves, Sorted;
    var v1 := v.(next := Some(msg.seqNum.value + 1));
    NextReleases(v1, now, verdicts, k + 1);
    var run := ReleaseRun(v1, verdicts, k + 1);
    var e := Expire(run.v, now, verdicts, k + 1 + |run.released|);
    SettleNext(v, msg, v1, WindowStep(e.v, run.released + e.released, Continue));
    NextShape(v, msg, now, verdicts, k);
  }

  lemma {:induction false} SettleNext(v: WindowView, msg: Message, v1: WindowView, rest: WindowStep)
    requires InRange(v) && Usable(msg) && v.next == msg.seqNum
    requires v1 == v.(next := Some(msg.seqNum.value + 1)) && Releases(v1, rest)
    ensures Settles(v, msg, OfferStep(WindowStep(rest.v, [] + [msg] + rest.released, Continue), false))
  {
    NothingReleases(v);
    SettleReleased(v, msg, WindowStep(v, [], Continue), v1, rest);
  }

  lemma {:induction false} NextShape(v: WindowView, msg: Message, now: nat, verdicts: Verdicts, k: nat)
    requires Willing(verdicts) && Usable(msg)
    ensures var run := ReleaseRun(v.(next := Some(msg.seqNum.value + 1)), verdicts, k + 1);
            var e := Expire(run.v, now, verdicts, k + 1 + |run.released|);
            run.outcome == Continue ==>
              OfferNext(v, msg, now, verdicts, k) == WindowStep(e.v, [] + [msg] + (run.released + e.released), e.outcome)
  {
    hide ReleaseRun, Expire;
    var run := ReleaseRun(v.(next := Some(msg.seqNum.value + 1)), verdicts, k + 1);
    var e := Expire(run.v, now, verdicts, k + 1 + |run.released|);
    assert [] + [msg] + (run.released + e.released) == [msg] + run.released + e.released;
  }

  lemma {:induction false} NothingReleases(v: WindowView)
    requires InRange(v) && v.next.Some?
    ensures Releases(v, WindowStep(v, [], Continue))
  {
    NoneMoves(v, v);
  }

  lemma {:induction false} FarSettles(v: WindowView, msg: Message, verdicts: Verdicts, k: nat)
    requires Willing(verdicts) && InRange(v) && v.len > 0 && Usable(msg) && v.next.Some?
    requires msg.seqNum.value > v.next.value + v.len
    ensures Settles(v, msg, OfferStep(OfferFar(v, msg, verdicts, k), false))
  {
    hide ReleaseRun, Settles, Moves, Sorted;
    var n, t := msg.seqNum.value, v.next.value + v.len;
    GiveUpThrough(v, t, verdicts, k);
    var r := ReleaseThrough(v, n - 1, verdicts, k);
    assert r == ReleaseThrough(v, t, verdicts, k);
    hide ReleaseThrough;
    var first, v1 := WindowStep(r.v.(next := Some(t + 1)), r.released, r.outcome), r.v.(next := Some(n + 1));
    RunInRange(v1, verdicts, k + |r.released| + 1);
    SettleReleased(v, msg, first, v1, ReleaseRun(v1, verdicts, k + |r.released| + 1));
  }

  lemma {:induction false} HeldSettles(v: WindowView, msg: Message, now: nat)
    requires InRange(v) && v.len > 0 && Usable(msg) && v.next.Some?
    requires v.next.value <= msg.seqNum.value <= v.next.value + v.len && !Occupied(v, msg.seqNum.value)
    ensures var v' := v.(held := v.held[msg.seqNum.value := Held(now + v.maxWait, msg)]);
            Settles(v, msg, OfferStep(WindowStep(v', [], Continue), false))
  {
    var n := msg.seqNum.value;
    assert n !in v.held;
  }

  lemma {:induction false} LateSettles(v: WindowView, msg: Message)
    requires InRange(v) && v.next.Some?
    ensures Settles(v, msg, OfferStep(WindowStep(v, [], Continue), true))
  {
  }

  lemma {:induction false} LaterSettles(v: WindowView, msg: Message, now: nat, verdicts: Verdicts, k: nat)
    requires Willing(verdicts) && InRange(v) && v.len > 0 && Usable(msg)
    ensures Settles(v, msg, OfferLater(v, msg, now, verdicts, k))
  {
    hide OfferFar, Occupied;
    if v.next.None? {
      FirstSettles(v, msg, verdicts, k);
    } else if msg.seqNum.value > v.next.value + v.len {
      FarSettles(v, msg, verdicts, k);
    } else {
      LateSettles(v, msg);
      if v.next.value <= msg.seqNum.value && !Occupied(v, msg.seqNum.value) {
        HeldSettles(v, msg, now);
      }
    }
  }

  lemma {:induction false} FirstSettles(v: WindowView, msg: Message, verdicts: Verdicts, k: nat)
    requires Willing(verdicts) && InRange(v) && Usable(msg) && v.next.None?
    ensures Settles(v, msg, OfferStep(WindowStep(v.(next := Some(msg.seqNum.value + 1)), [msg], verdicts(k)), false))
  {
    assert v.held == map[];
  }

  lemma {:induction false} SettlesAfter(v: WindowView, msg: Message, e: WindowStep, o: OfferStep)
    requires (v.next.Some? && Releases(v, e)) || (v.next.None? && e == WindowStep(v, [], Continue))
    requires Settles(e.v, msg, o)
    ensures Settles(v, msg, OfferStep(WindowStep(o.step.v, e.released + o.step.released, o.step.outcome), o.late))
  {
    if v.next.Some? {
      SortedAppend(e.released, o.step.released, v.next.value, e.v.next.value, o.step.v.next.value);
      forall m
        ensures Holds(v, m) + multiset([msg])[m]
                == multiset(e.released + o.step.released)[m] + Holds(o.step.v, m) + if o.late then multiset([msg])[m] else 0
      {
        assert Holds(v, m) == multiset(e.released)[m] + Holds(e.v, m);
        assert Holds(e.v, m) + multiset([msg])[m]
               == multiset(o.step.released)[m] + Holds(o.step.v, m) + if o.late then multiset([msg])[m] else 0;
      }
    } else {
      assert e.released + o.step.released == o.step.released;
    }
  }

  lemma {:induction false} OfferSettles(v: WindowView, msg: Message, now: nat, verdicts: Verdicts, k: nat)
    requires Willing(verdicts) && InRange(v) && v.len > 0 && Usable(msg) && !Repeats(v, msg)
    ensures Settles(v, msg, Offer(v, msg, now, verdicts, k))
  {
    hide OfferNext, OfferLater, Expire, Settles, InRange;
    if v.next == msg.seqNum {
      NextSettles(v, msg, now, verdicts, k);
    } else {
      ExpireReleases(v, now, verdicts, k);
      var e := Expire(v, now, verdicts, k);
      assert InRange(e.v);
      LaterSettles(e.v, msg, now, verdicts, k + |e.released|);
      SettlesAfter(v, msg, e, OfferLater(e.v, msg, now, verdicts, k + |e.released|));
    }
  }

  lemma {:induction false} CutKeeps(v: WindowView, lo: nat, hi: nat, v': WindowView, n: nat)
    requires Cut(v, lo, hi, v') && n in v.held && n < lo && Labelled(v)
    ensures n in v'.held && Labelled(v')
  {
  }

  lemma {:induction false} GiveUpStrands(v: WindowView, t: nat, n: nat, verdicts: Verdicts, k: nat)
    requires Willing(verdicts) && Labelled(v) && v.next.Some? && n in v.held && n < v.next.value
    ensures var r := ReleaseThrough(v, t, verdicts, k);
            r.outcome == Continue && n in r.v.held && Labelled(r.v)
  {
    hide ReleaseBetween, Moves, Sorted, Cut, Labelled;
    var last := if t < v.next.value + v.len then t else v.next.value + v.len;
    if v.next.value <= last + 1 {
      BetweenReleases(v, v.next.value, last, verdicts, k);
      CutKeeps(v, v.next.value, last + 1, ReleaseBetween(v, v.next.value, last, verdicts, k).v, n);
    } else {
      BetweenPast(v, v.next.value, last, verdicts, k);
    }
  }

  lemma {:induction false} RunStrands(v: WindowView, n: nat, verdicts: Verdicts, k: nat)
    requires Willing(verdicts) && Labelled(v) && v.next.Some? && n in v.held && n < v.next.value
    ensures var r := ReleaseRun(v, verdicts, k);
            r.outcome == Continue && n in r.v.held && Labelled(r.v) && r.v.next.Some? && n < r.v.next.value
  {
    hide ReleaseRun, Moves, Sorted, Cut, Labelled;
    RunReleases(v, verdicts, k);
    var r := ReleaseRun(v, verdicts, k);
    CutKeeps(v, v.next.value, r.v.next.value, r.v, n);
  }

  /** A message held below `next` is not among what expiry releases, however long it has waited. */
  lemma {:induction false} ExpireStrands(v: WindowView, n: nat, now: nat, verdicts: Verdicts, k: nat)
    requires Willing(verdicts) && Labelled(v) && v.next.Some? && n in v.held && n < v.next.value
    requires forall m :: m in v.held ==> n <= m
    ensures var r := Expire(v, now, verdicts, k);
            n in r.v.held && r.v.next.Some? && n < r.v.next.value
  {
    if Expired(v, now) != {} {
      var t := Greatest(Expired(v, now));
      assert n <= t;
      hide ReleaseThrough, ReleaseRun, Labelled, Expired;
      GiveUpStrands(v, t, n, verdicts, k);
      var r := ReleaseThrough(v, t, verdicts, k);
      SameLabels(r.v, r.v.(next := Some(t + 1)));
      RunStrands(r.v.(next := Some(t + 1)), n, verdicts, k + |r.released|);
    }
  }

  lemma {:induction false} SameLabels(v: WindowView, v': WindowView)
    requires Labelled(v) && v'.held == v.held
    ensures Labelled(v')
  {
  }

  lemma {:induction false} RunHeldSubset(v: WindowView, verdicts: Verdicts, k: nat)
    requires Willing(verdicts) && Labelled(v) && v.next.Some?
    ensures forall m :: m in ReleaseRun(v, verdicts, k).v.held ==> m in v.held
  {
    hide ReleaseRun;
    RunReleases(v, verdicts, k);
  }

  /** The repeated message stays where it is, passed by. */
  lemma {:induction false} RepeatStrands(v: WindowView, msg: Message, now: nat, verdicts: Verdicts, k: nat)
    requires Willing(verdicts) && InRange(v) && Repeats(v, msg)
    ensures !InRange(Offer(v, msg, now, verdicts, k).step.v)
  {
    hide ReleaseRun, Expire;
    var n := msg.seqNum.value;
    var v1 := v.(next := Some(n + 1));
    RunStrands(v1, n, verdicts, k + 1);
    var run := ReleaseRun(v1, verdicts, k + 1);
    RunHeldSubset(v1, verdicts, k + 1);
    ExpireStrands(run.v, n, now, verdicts, k + 1 + |run.released|);
  }

  /** An offer keeps the window in order if and only if it does not repeat the number expected while that is held. */
  lemma {:induction false} OfferKeepsRange(v: WindowView, msg: Message, now: nat, verdicts: Verdicts, k: nat)
    requires Willing(verdicts) && InRange(v) && v.len > 0
    ensures InRange(Offer(v, msg, now, verdicts, k).step.v) <==> !Repeats(v, msg)
  {
    if Repeats(v, msg) {
      RepeatStrands(v, msg, now, verdicts, k);
    } else if Usable(msg) {
      OfferSettles(v, msg, now, verdicts, k);
    }
  }

  // ---------------------------------------------------------------------
  // When a message is handed back
  // ---------------------------------------------------------------------

  /** Two numbers at most `len` apart share a slot only if they are the same or exactly `len` apart. */
  lemma {:induction false} SharedSlot(len: nat, m: nat, n: nat)
    requires len > 0 && m < n <= m + len && m % len == n % len
    ensures n == m + len
  {
    var q := n / len - m / len;
    assert n - m == len * q;
    assert q <= 0 ==> len * q <= 0;
    assert q >= 2 ==> len * q >= len * 2;
  }

  lemma {:induction false} SlotOf(len: nat, m: nat)
    requires len > 0
    ensures (m + len) % len == m % len
  {
    assert m + len == len * (m / len + 1) + m % len;
    ModUnique(len, m + len, m / len + 1, m % len);
  }

  lemma {:induction false} ModUnique(len: nat, a: nat, q: nat, r: nat)
    requires len > 0 && a == len * q + r && r < len
    ensures a % len == r
  {
    var d := a / len - q;
    assert len * d == r - a % len;
    assert d >= 1 ==> len * d >= len;
    assert d <= -1 ==> len * d <= 0 - len;
  }

  /** The first and last numbers a window can hold share a slot. */
  ghost predicate Clashes(v: WindowView, n: nat)
    requires v.next.Some?
  {
    var next := v.next.value;
    (n == next + v.len && next in v.held) || (n == next && next + v.len in v.held)
  }

  lemma {:induction false} OccupiedOnlyWhen(v: WindowView, n: nat)
    requires InRange(v) && v.len > 0 && v.next.Some? && v.next.value <= n <= v.next.value + v.len && Occupied(v, n)
    ensures n in v.held || Clashes(v, n)
  {
    var m :| m in v.held && m % v.len == n % v.len;
    if m < n {
      SharedSlot(v.len, m, n);
    } else if n < m {
      SharedSlot(v.len, n, m);
    }
  }

  lemma {:induction false} OccupiedWhen(v: WindowView, n: nat)
    requires v.len > 0 && v.next.Some? && (n in v.held || Clashes(v, n))
    ensures Occupied(v, n)
  {
    SlotOf(v.len, v.next.value);
  }

  /** Once nothing held has expired and the number is not the one expected. */
  lemma {:induction false} LaterLateWhen(v: WindowView, msg: Message, now: nat, verdicts: Verdicts, k: nat)
    requires InRange(v) && v.len > 0 && Usable(msg) && v.next.Some?
    ensures OfferLater(v, msg, now, verdicts, k).late
            <==> msg.seqNum.value < v.next.value || msg.seqNum.value in v.held || Clashes(v, msg.seqNum.value)
  {
    hide Occupied, OfferFar;
    var n, next := msg.seqNum.value, v.next.value;
    if next <= n <= next + v.len {
      if Occupied(v, n) {
        OccupiedOnlyWhen(v, n);
      } else if n in v.held || Clashes(v, n) {
        OccupiedWhen(v, n);
      }
    }
  }

  lemma {:induction false} FreeBehind(held: map<nat, Held>, n: nat, p: nat)
    requires n in held && n < p && p !in held - {n} && forall m :: n + 1 <= m < p ==> m in held - {n}
    ensures p !in held && forall m :: n <= m < p ==> m in held
  {
    assert p in held ==> p in held - {n};
    forall m | n <= m < p ensures m in held {
      assert m > n ==> m in held - {n};
    }
  }

  /** The first number from `n` on that is not held. */
  function FirstFree(held: map<nat, Held>, n: nat): (p: nat)
    ensures n <= p && p !in held && forall m :: n <= m < p ==> m in held
    decreases |held|
  {
    if n in held then
      Shrinks(held, n);
      var p := FirstFree(held - {n}, n + 1);
      FreeBehind(held, n, p);
      p
    else n
  }

  /** The number a window expects once what has expired has gone, with the run behind it. */
  ghost function ExpectedAt(v: WindowView, now: nat): nat
    requires v.next.Some?
  {
    if Expired(v, now) == {} then v.next.value else FirstFree(v.held, Greatest(Expired(v, now)) + 1)
  }

  lemma {:induction false} RunStopsAt(v: WindowView, verdicts: Verdicts, k: nat)
    requires Willing(verdicts) && v.next.Some?
    ensures ReleaseRun(v, verdicts, k).v.next == Some(FirstFree(v.held, v.next.value))
    decreases |v.held|
  {
    hide ReleaseRun;
    var n := v.next.value;
    RunTakes(v, verdicts, k);
    if n in v.held {
      Shrinks(v.held, n);
      RunStopsAt(v.(held := v.held - {n}, next := Some(n + 1)), verdicts, k + 1);
    }
  }

  lemma {:induction false} FreeAbove(held: map<nat, Held>, held': map<nat, Held>, n: nat)
    requires forall m :: m >= n ==> (m in held <==> m in held')
    ensures FirstFree(held, n) == FirstFree(held', n)
  {
    var p, p' := FirstFree(held, n), FirstFree(held', n);
    assert p !in held' && p' !in held;
  }

  /** The window once what has expired has gone, told from the window before. */
  lemma {:induction false} ExpireLeaves(v: WindowView, now: nat, verdicts: Verdicts, k: nat)
    requires Willing(verdicts) && InRange(v) && v.next.Some?
    ensures var e, p := Expire(v, now, verdicts, k), ExpectedAt(v, now);
            && e.outcome == Continue && e.v.len == v.len && e.v.next == Some(p) && InRange(e.v)
            && (forall n :: n in e.v.held <==> n in v.held && n >= p)
            && forall n :: n in e.v.held ==> e.v.held[n] == v.held[n]
  {
    hide Expire, InRange, Releases, ReleaseThrough, ReleaseRun, FirstFree, Expired;
    ExpireReleases(v, now, verdicts, k);
    ReleasesInRange(v, Expire(v, now, verdicts, k));
    if Expired(v, now) == {} {
      NoneExpired(v, now, verdicts, k);
    } else {
      var t := Greatest(Expired(v, now));
      ExpiredWithin(v, t, now);
      ThroughLeaves(v, t, verdicts, k);
      ExpireIs(v, now, verdicts, k);
    }
  }

  lemma {:induction false} ReleasesInRange(v: WindowView, r: WindowStep)
    requires Releases(v, r)
    ensures r.outcome == Continue && r.v.len == v.len && InRange(r.v)
  {
  }

  lemma {:induction false} NoneExpired(v: WindowView, now: nat, verdicts: Verdicts, k: nat)
    requires Expired(v, now) == {} && InRange(v) && v.next.Some?
    ensures Expire(v, now, verdicts, k) == WindowStep(v, [], Continue)
    ensures forall n :: n in v.held ==> n >= v.next.value
  {
  }

  lemma {:induction false} ExpiredWithin(v: WindowView, t: nat, now: nat)
    requires InRange(v) && IsGreatest(t, Expired(v, now))
    ensures v.next.Some? && v.next.value <= t <= v.next.value + v.len
  {
  }

  lemma {:induction false} ExpireIs(v: WindowView, now: nat, verdicts: Verdicts, k: nat)
    requires Expired(v, now) != {} && Expire(v, now, verdicts, k).outcome == Continue
    ensures var r := ReleaseThrough(v, Greatest(Expired(v, now)), verdicts, k);
            var run := ReleaseRun(r.v.(next := Some(Greatest(Expired(v, now)) + 1)), verdicts, k + |r.released|);
            r.outcome == Continue ==> Expire(v, now, verdicts, k).v == run.v
  {
    hide ReleaseThrough, ReleaseRun, Expired;
  }

  lemma {:induction false} ThroughLeaves(v: WindowView, t: nat, verdicts: Verdicts, k: nat)
    requires Willing(verdicts) && InRange(v) && v.next.Some? && v.next.value <= t <= v.next.value + v.len
    ensures var r := ReleaseThrough(v, t, verdicts, k);
            var run, p := ReleaseRun(r.v.(next := Some(t + 1)), verdicts, k + |r.released|), FirstFree(v.held, t + 1);
            && r.outcome == Continue && run.v.next == Some(p)
            && (forall n :: n in run.v.held <==> n in v.held && n >= p)
            && forall n :: n in run.v.held ==> run.v.held[n] == v.held[n]
  {
    hide ReleaseBetween, ReleaseRun, Part, FirstFree;
    BetweenReleases(v, v.next.value, t, verdicts, k);
    var r := ReleaseThrough(v, t, verdicts, k);
    var v1 := r.v.(next := Some(t + 1));
    PartCut(v, v.next.value, t + 1, r);
    RunReleases(v1, verdicts, k + |r.released|);
    RunStopsAt(v1, verdicts, k + |r.released|);
    FreeAbove(v.held, v1.held, t + 1);
    PartCut(v1, t + 1, FirstFree(v.held, t + 1), ReleaseRun(v1, verdicts, k + |r.released|));
  }

  lemma {:induction false} PartCut(v: WindowView, lo: nat, hi: nat, r: WindowStep)
    requires Part(v, lo, hi, r)
    ensures r.outcome == Continue && Cut(v, lo, hi, r.v)
  {
  }

  /** Before the call: the number is not expected, and will have been passed, is held, or its slot is taken. */
  ghost predicate ComesLate(v: WindowView, msg: Message, now: nat) {
    && v.len > 0 && Usable(msg) && v.next.Some? && v.next != msg.seqNum
    && var n, p := msg.seqNum.value, ExpectedAt(v, now);
       n < p || n in v.held || (n == p + v.len && p in v.held) || (n == p && p + v.len in v.held)
  }

  /**
   * An offer is handed back exactly when it comes late. Its number is not the one expected; and it is
   * below the one that will be expected once what has waited too long has gone, or it is held, or it
   * is one end of the range from there and the other end, which has the same slot, is held.
   */
  lemma {:induction false} LateWhen(v: WindowView, msg: Message, now: nat, verdicts: Verdicts, k: nat)
    requires Willing(verdicts) && InRange(v)
    ensures Offer(v, msg, now, verdicts, k).late <==> ComesLate(v, msg, now)
  {
    hide OfferNext, OfferLater, Expire, InRange;
    if v.len > 0 && Usable(msg) && v.next != msg.seqNum {
      if v.next.None? {
        FirstNotLate(v, msg, now, verdicts, k);
      } else {
        ExpireLeaves(v, now, verdicts, k);
        var e := Expire(v, now, verdicts, k);
        LaterLateWhen(e.v, msg, now, verdicts, k + |e.released|);
        LateThen(v, e.v, msg, now);
      }
    }
  }

  lemma {:induction false} FirstNotLate(v: WindowView, msg: Message, now: nat, verdicts: Verdicts, k: nat)
    requires Willing(verdicts) && InRange(v) && v.len > 0 && Usable(msg) && v.next.None?
    ensures !Offer(v, msg, now, verdicts, k).late
  {
    hide OfferNext;
    ExpireReleases(v, now, verdicts, k);
  }

  lemma {:induction false} LateThen(v: WindowView, w: WindowView, msg: Message, now: nat)
    requires InRange(v) && v.next.Some? && Usable(msg) && v.next != msg.seqNum && v.len > 0
    requires w.len == v.len && w.next == Some(ExpectedAt(v, now))
    requires forall n :: n in w.held <==> n in v.held && n >= ExpectedAt(v, now)
    ensures ComesLate(v, msg, now)
            <==> msg.seqNum.value < w.next.value || msg.seqNum.value in w.held || Clashes(w, msg.seqNum.value)
  {
    hide ExpectedAt;
  }

  function Numbered(n: nat): Message {
    Blank(Application("D")).(seqNum := Some(n))
  }

  lemma {:induction false} GreatestOfOne(n: nat)
    ensures Greatest({n}) == n
  {
    assert Greatest({n}) in {n};
  }

  /**
   * The last case does arise, so "passed, or already held" is not the whole of it. A window of one
   * slot holds 3, waiting for 2. When 4 comes 3 has expired: it is released and 4 is expected — yet
   * held. Now 5 is handed back, though it is neither passed nor held.
   */
  lemma {:induction false} LateThoughNeitherPassedNorHeld(verdicts: Verdicts)
    requires Willing(verdicts)
    ensures var v := WindowView(1, 10, map[3 := Held(10, Numbered(3))], Some(2));
            var fourth := Offer(v, Numbered(4), 10, verdicts, 0);
            && InRange(v)
            && fourth.step.v == WindowView(1, 10, map[4 := Held(20, Numbered(4))], Some(4))
            && fourth.step.released == [Numbered(3)]
            && Offer(fourth.step.v, Numbered(5), 10, verdicts, 1).late
  {
    var v := WindowView(1, 10, map[3 := Held(10, Numbered(3))], Some(2));
    assert Expired(v, 10) == {3};
    GreatestOfOne(3);
    var none := v.(held := map[]);
    assert v.held - {3} == map[];
    assert ReleaseBetween(v, 3, 3, verdicts, 0) == WindowStep(none, [Numbered(3)], Continue) by {
      BetweenPast(none, 4, 3, verdicts, 1);
    }
    assert ReleaseThrough(v, 3, verdicts, 0) == WindowStep(none, [Numbered(3)], Continue);
    var e := Expire(v, 10, verdicts, 0);
    assert e == WindowStep(none.(next := Some(4)), [Numbered(3)], Continue);
    var v4 := WindowView(1, 10, map[4 := Held(20, Numbered(4))], Some(4));
    assert Offer(v, Numbered(4), 10, verdicts, 0).step.v == v4;
    assert Expired(v4, 10) == {};
    LateWhen(v4, Numbered(5), 10, verdicts, 1);
  }

  // ---------------------------------------------------------------------
  // Whole runs
  // ---------------------------------------------------------------------

  datatype WindowInput = OfferIn(msg: Message, now: nat) | ExpireIn(now: nat)

  /** A window, and what has been offered to it, released by it and handed back. */
  datatype WindowLog = WindowLog(v: WindowView, offered: seq<Message>, released: seq<Message>, late: seq<Message>)

  ghost function WindowAct(l: WindowLog, i: WindowInput, verdicts: Verdicts): WindowLog {
    match i
    case OfferIn(msg, now) =>
      var o := Offer(l.v, msg, now, verdicts, |l.released|);
      WindowLog(o.step.v, l.offered + [msg], l.released + o.step.released, if o.late then l.late + [msg] else l.late)
    case ExpireIn(now) =>
      var e := Expire(l.v, now, verdicts, |l.released|);
      l.(v := e.v, released := l.released + e.released)
  }

  ghost function WindowRun(len: nat, maxWait: nat, inputs: seq<WindowInput>, verdicts: Verdicts): WindowLog {
    if inputs == [] then WindowLog(WindowView(len, maxWait, map[], None), [], [], [])
    else WindowAct(WindowRun(len, maxWait, inputs[..|inputs| - 1], verdicts), inputs[|inputs| - 1], verdicts)
  }

  /** No offer repeats the number expected while that number is held. Distinct numbers never do. */
  ghost predicate NoRepeats(len: nat, maxWait: nat, inputs: seq<WindowInput>, verdicts: Verdicts) {
    inputs != [] ==>
      var before, last := inputs[..|inputs| - 1], inputs[|inputs| - 1];
      && NoRepeats(len, maxWait, before, verdicts)
      && (last.OfferIn? ==> !Repeats(WindowRun(len, maxWait, before, verdicts).v, last.msg))
  }

  function UsableNumbers(msgs: seq<Message>): seq<nat> {
    if msgs == [] then []
    else
      var before, last := UsableNumbers(msgs[..|msgs| - 1]), msgs[|msgs| - 1];
      if Usable(last) then before + [last.seqNum.value] else before
  }

  lemma {:induction false} UsableAppend(a: seq<Message>, b: seq<Message>)
    ensures UsableNumbers(a + b) == UsableNumbers(a) + UsableNumbers(b)
  {
    if b == [] {
      assert a + b == a;
    } else {
      assert (a + b)[..|a + b| - 1] == a + b[..|b| - 1];
      UsableAppend(a, b[..|b| - 1]);
    }
  }

  ghost predicate Rising(ns: seq<nat>, lo: nat, hi: nat) {
    StrictlyIncreasing(ns) && forall i :: 0 <= i < |ns| ==> lo <= ns[i] < hi
  }

  lemma {:induction false} SortedRises(msgs: seq<Message>, lo: nat, hi: nat)
    requires Sorted(msgs, lo, hi)
    ensures Rising(UsableNumbers(msgs), lo, if msgs == [] then lo else msgs[|msgs| - 1].seqNum.value + 1)
    ensures Rising(UsableNumbers(msgs), lo, hi)
  {
    if msgs != [] {
      var before := msgs[..|msgs| - 1];
      SortedRises(before, lo, hi);
      assert before != [] ==> msgs[|msgs| - 2].seqNum.value < msgs[|msgs| - 1].seqNum.value;
    }
  }

  lemma {:induction false} RisingAppend(a: seq<nat>, b: seq<nat>, lo: nat, mid: nat, hi: nat)
    requires Rising(a, lo, mid) && Rising(b, mid, hi) && lo <= mid <= hi
    ensures Rising(a + b, lo, hi)
  {
  }

  /** Each message offered was released once, handed back or is held; what was released rises towards `next`. */
  ghost predicate Accounted(l: WindowLog) {
    && InRange(l.v)
    && (forall msg :: multiset(l.offered)[msg] == multiset(l.released)[msg] + multiset(l.late)[msg] + Holds(l.v, msg))
    && (if l.v.next.Some? then Rising(UsableNumbers(l.released), 0, l.v.next.value)
        else UsableNumbers(l.released) == [])
  }

  lemma {:induction false} RisesOn(l: WindowLog, more: seq<Message>, next: nat)
    requires Accounted(l) && l.v.next.Some? && l.v.next.value <= next && Sorted(more, l.v.next.value, next)
    ensures Rising(UsableNumbers(l.released + more), 0, next)
  {
    UsableAppend(l.released, more);
    SortedRises(more, l.v.next.value, next);
    RisingAppend(UsableNumbers(l.released), UsableNumbers(more), 0, l.v.next.value, next);
  }

  lemma {:induction false} FirstRises(l: WindowLog, msg: Message)
    requires Accounted(l) && l.v.next.None? && Usable(msg)
    ensures Rising(UsableNumbers(l.released + [msg]), 0, msg.seqNum.value + 1)
  {
    UsableAppend(l.released, [msg]);
    SortedRises([msg], msg.seqNum.value, msg.seqNum.value + 1);
    RisingAppend([], UsableNumbers([msg]), 0, msg.seqNum.value, msg.seqNum.value + 1);
    assert [] + UsableNumbers([msg]) == UsableNumbers([msg]);
  }

  /** The sums, once a call has settled a message. */
  lemma {:induction false} SumsAdd(l: WindowLog, msg: Message, o: OfferStep, l': WindowLog)
    requires Accounted(l) && Settles(l.v, msg, o)
    requires l' == WindowLog(o.step.v, l.offered + [msg], l.released + o.step.released, if o.late then l.late + [msg] else l.late)
    ensures forall m :: multiset(l'.offered)[m] == multiset(l'.released)[m] + multiset(l'.late)[m] + Holds(l'.v, m)
  {
    forall m
      ensures multiset(l'.offered)[m] == multiset(l'.released)[m] + multiset(l'.late)[m] + Holds(l'.v, m)
    {
      assert multiset(l.offered)[m] == multiset(l.released)[m] + multiset(l.late)[m] + Holds(l.v, m);
      assert Holds(l.v, m) + multiset([msg])[m]
             == multiset(o.step.released)[m] + Holds(o.step.v, m) + if o.late then multiset([msg])[m] else 0;
    }
  }

  lemma {:induction false} OfferAccounted(l: WindowLog, msg: Message, now: nat, verdicts: Verdicts)
    requires Willing(verdicts) && Accounted(l) && l.v.len > 0 && Usable(msg) && !Repeats(l.v, msg)
    ensures Accounted(WindowAct(l, OfferIn(msg, now), verdicts))
  {
    hide Offer, Rising, UsableNumbers, Holds;
    var o := Offer(l.v, msg, now, verdicts, |l.released|);
    OfferSettles(l.v, msg, now, verdicts, |l.released|);
    if l.v.next.Some? {
      RisesOn(l, o.step.released, o.step.v.next.value);
    } else {
      FirstRises(l, msg);
    }
    SumsAdd(l, msg, o, WindowAct(l, OfferIn(msg, now), verdicts));
  }

  lemma {:induction false} UnusableAccounted(l: WindowLog, msg: Message, now: nat, verdicts: Verdicts)
    requires Willing(verdicts) && Accounted(l) && !Usable(msg)
    ensures Accounted(WindowAct(l, OfferIn(msg, now), verdicts))
  {
    UsableAppend(l.released, [msg]);
    assert [msg][..0] == [];
    assert UsableNumbers([msg]) == [];
    var l' := WindowAct(l, OfferIn(msg, now), verdicts);
    assert l'.released == l.released + [msg] && l'.v == l.v;
    assert UsableNumbers(l.released) + [] == UsableNumbers(l.released);
    forall m
      ensures multiset(l'.offered)[m] == multiset(l'.released)[m] + multiset(l'.late)[m] + Holds(l'.v, m)
    {
      assert multiset(l.offered)[m] == multiset(l.released)[m] + multiset(l.late)[m] + Holds(l.v, m);
    }
  }

  lemma {:induction false} ExpireAccounted(l: WindowLog, now: nat, verdicts: Verdicts)
    requires Willing(verdicts) && Accounted(l)
    ensures Accounted(WindowAct(l, ExpireIn(now), verdicts))
  {
    var e := Expire(l.v, now, verdicts, |l.released|);
    ExpireReleases(l.v, now, verdicts, |l.released|);
    if l.v.next.Some? {
      RisesOn(l, e.released, e.v.next.value);
      var l' := WindowAct(l, ExpireIn(now), verdicts);
      forall m
        ensures multiset(l'.offered)[m] == multiset(l'.released)[m] + multiset(l'.late)[m] + Holds(l'.v, m)
      {
        assert multiset(l.offered)[m] == multiset(l.released)[m] + multiset(l.late)[m] + Holds(l.v, m);
        assert Holds(l.v, m) == multiset(e.released)[m] + Holds(e.v, m);
      }
    } else {
      assert l.released + [] == l.released;
    }
  }

  /**
   * Over any run in which no offer repeats the number expected while it is held: the numbers
   * released strictly increase, every message offered was released once, handed back or is still
   * held, and held numbers stay within a window's length of the one expected.
   */
  lemma {:induction false} RunAccounted(len: nat, maxWait: nat, inputs: seq<WindowInput>, verdicts: Verdicts)
    requires len > 0 && Willing(verdicts) && NoRepeats(len, maxWait, inputs, verdicts)
    ensures WindowRun(len, maxWait, inputs, verdicts).v.len == len
    ensures Accounted(WindowRun(len, maxWait, inputs, verdicts))
  {
    if inputs != [] {
      hide Accounted, Offer, Expire, Repeats;
      var before, last := inputs[..|inputs| - 1], inputs[|inputs| - 1];
      RunAccounted(len, maxWait, before, verdicts);
      var l := WindowRun(len, maxWait, before, verdicts);
      match last {
        case OfferIn(msg, now) =>
          if Usable(msg) {
            OfferAccounted(l, msg, now, verdicts);
            OfferKeepsLength(l.v, msg, now, verdicts, |l.released|);
          } else {
            UnusableAccounted(l, msg, now, verdicts);
            OfferKeepsLength(l.v, msg, now, verdicts, |l.released|);
          }
        case ExpireIn(now) =>
          ExpireAccounted(l, now, verdicts);
      }
    }
  }

  lemma {:induction false} OfferKeepsLength(v: WindowView, msg: Message, now: nat, verdicts: Verdicts, k: nat)
    ensures Offer(v, msg, now, verdicts, k).step.v.len == v.len
  {
    hide Expire, ReleaseRun, ReleaseThrough;
  }

  function OfferedNumbers(inputs: seq<WindowInput>): seq<nat> {
    if inputs == [] then []
    else
      var before, last := OfferedNumbers(inputs[..|inputs| - 1]), inputs[|inputs| - 1];
      if last.OfferIn? && Usable(last.msg) then before + [last.msg.seqNum.value] else before
  }

  ghost predicate Distinct(ns: seq<nat>) {
    forall i, j :: 0 <= i < j < |ns| ==> ns[i] != ns[j]
  }

  lemma {:induction false} OfferedAreNumbered(len: nat, maxWait: nat, inputs: seq<WindowInput>, verdicts: Verdicts,
                                              msg: Message)
    requires msg in WindowRun(len, maxWait, inputs, verdicts).offered && Usable(msg)
    ensures msg.seqNum.value in OfferedNumbers(inputs)
  {
    hide Offer, Expire;
    var before, last := inputs[..|inputs| - 1], inputs[|inputs| - 1];
    if msg in WindowRun(len, maxWait, before, verdicts).offered {
      OfferedAreNumbered(len, maxWait, before, verdicts, msg);
    }
  }

  lemma {:induction false} HeldWasOffered(l: WindowLog, n: nat)
    requires Accounted(l) && n in l.v.held
    ensures l.v.held[n].msg in l.offered && l.v.held[n].msg.seqNum == Some(n)
  {
    var msg := l.v.held[n].msg;
    assert Holds(l.v, msg) == 1;
    assert multiset(l.offered)[msg] >= 1;
  }

  lemma {:induction false} DistinctSnoc(ns: seq<nat>, n: nat)
    requires Distinct(ns + [n])
    ensures Distinct(ns) && n !in ns
  {
    var all := ns + [n];
    assert all[|ns|] == n && forall i :: 0 <= i < |ns| ==> all[i] == ns[i];
  }

  /** An offer after a run of distinct numbers, itself under a new number, repeats none held. */
  lemma {:induction false} NewNumberRepeatsNone(len: nat, maxWait: nat, before: seq<WindowInput>, verdicts: Verdicts,
                                                msg: Message)
    requires Accounted(WindowRun(len, maxWait, before, verdicts)) && Usable(msg)
    requires msg.seqNum.value !in OfferedNumbers(before)
    ensures !Repeats(WindowRun(len, maxWait, before, verdicts).v, msg)
  {
    var l, n := WindowRun(len, maxWait, before, verdicts), msg.seqNum.value;
    if n > 0 && n in l.v.held {
      HeldWasOffered(l, n);
      hide Accounted, WindowRun;
      OfferedAreNumbered(len, maxWait, before, verdicts, l.v.held[n].msg);
    }
  }

  /** Messages with distinct numbers never upset a window. */
  lemma {:induction false} DistinctNeverRepeat(len: nat, maxWait: nat, inputs: seq<WindowInput>, verdicts: Verdicts)
    requires len > 0 && Willing(verdicts) && Distinct(OfferedNumbers(inputs))
    ensures NoRepeats(len, maxWait, inputs, verdicts)
  {
    if inputs != [] {
      hide WindowRun, Accounted, Distinct, Willing;
      var before, last := inputs[..|inputs| - 1], inputs[|inputs| - 1];
      if last.OfferIn? && Usable(last.msg) {
        DistinctSnoc(OfferedNumbers(before), last.msg.seqNum.value);
      }
      DistinctNeverRepeat(len, maxWait, before, verdicts);
      RunAccounted(len, maxWait, before, verdicts);
      if last.OfferIn? && Usable(last.msg) {
        NewNumberRepeatsNone(len, maxWait, before, verdicts, last.msg);
      }
    }
  }
}
