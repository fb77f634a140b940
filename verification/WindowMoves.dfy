/**
 * Where an offer leaves a reorder window, told from the window before it (reorder.rs:147-312): which number
 * is expected, and exactly what is held. With what is released being what is not, in order, that is all an
 * offer does.
 */
module WindowMoves {
  import opened FixMessage
  import opened Session
  import opened Reordering
  import opened ReorderRuns

  /** What is held from a number on. */
  function Above(held: map<nat, Held>, q: nat): map<nat, Held> {
    map n | n in held && n >= q :: held[n]
  }

  /** The number expected once an offer that was waited for, and the run behind it, have gone. */
  function ReachedBy(v: WindowView, n: nat): nat
    requires v.next.Some?
  {
    if v.next.value == n then FirstFree(v.held, n + 1) else v.next.value
  }

  /** And once what has then waited too long has gone. */
  ghost function LeftAt(v: WindowView, n: nat, now: nat): nat
    requires v.next.Some?
  {
    var q := ReachedBy(v, n);
    ExpectedAt(v.(next := Some(q), held := Above(v.held, q)), now)
  }

  /** The number expected after an offer: past it, if it is out of reach. */
  ghost function NextAfter(v: WindowView, msg: Message, now: nat): nat
    requires v.next.Some? && Usable(msg)
  {
    var n, p := msg.seqNum.value, LeftAt(v, msg.seqNum.value, now);
    if v.next.value != n && n > p + v.len then n + 1 else p
  }

  /** Whether the offer is held: it was not the one waited for, it is neither behind nor too far ahead, and there is room. */
  ghost predicate IsHeld(v: WindowView, msg: Message, now: nat)
    requires v.next.Some? && Usable(msg)
  {
    var n, p := msg.seqNum.value, LeftAt(v, msg.seqNum.value, now);
    v.next.value != n && p <= n <= p + v.len && !ComesLate(v, msg, now)
  }

  lemma {:induction false} AboveAll(v: WindowView)
    requires InRange(v) && v.next.Some?
    ensures Above(v.held, v.next.value) == v.held
  {
  }

  lemma {:induction false} SameAbove(held: map<nat, Held>, q: nat, held': map<nat, Held>)
    requires forall n :: n in held' <==> n in held && n >= q
    requires forall n :: n in held' ==> held'[n] == held[n]
    ensures held' == Above(held, q)
  {
  }

  lemma {:induction false} AboveTwice(held: map<nat, Held>, q: nat, p: nat)
    requires q <= p
    ensures Above(Above(held, q), p) == Above(held, p)
  {
  }

  lemma {:induction false} ExpectedFrom(v: WindowView, now: nat)
    requires InRange(v) && v.next.Some?
    ensures ExpectedAt(v, now) >= v.next.value
  {
    hide FirstFree;
    if Expired(v, now) != {} {
      ExpiredWithin(v, Greatest(Expired(v, now)), now);
    }
  }

  /** The number waited for comes. */
  lemma {:induction false} NextLeaves(v: WindowView, msg: Message, now: nat, verdicts: Verdicts, k: nat)
    requires Willing(verdicts) && InRange(v) && v.len > 0 && Usable(msg) && v.next == msg.seqNum && !Repeats(v, msg)
    ensures var r, p := OfferNext(v, msg, now, verdicts, k), LeftAt(v, msg.seqNum.value, now);
            r.v.next == Some(p) && r.v.held == Above(v.held, p)
  {
    hide ReleaseRun, Expire, FirstFree, ExpectedAt, InRange, Above;
    var n := msg.seqNum.value;
    var v1, q := v.(next := Some(n + 1)), FirstFree(v.held, n + 1);
    RunLeaves(v, n, verdicts, k + 1);
    var run := ReleaseRun(v1, verdicts, k + 1);
    ExpectedFrom(run.v, now);
    ExpireLeaves(run.v, now, verdicts, k + 1 + |run.released|);
    var e := Expire(run.v, now, verdicts, k + 1 + |run.released|);
    var p := ExpectedAt(run.v, now);
    SameAbove(run.v.held, p, e.v.held);
    AboveTwice(v.held, q, p);
    NextShape(v, msg, now, verdicts, k);
  }

  /** The run behind the number waited for. */
  lemma {:induction false} RunLeaves(v: WindowView, n: nat, verdicts: Verdicts, k: nat)
    requires Willing(verdicts) && InRange(v) && v.next == Some(n) && n !in v.held
    ensures var run, q := ReleaseRun(v.(next := Some(n + 1)), verdicts, k), FirstFree(v.held, n + 1);
            run.outcome == Continue && InRange(run.v) && run.v == v.(next := Some(q), held := Above(v.held, q))
  {
    hide ReleaseRun, FirstFree, Part;
    var v1, q := v.(next := Some(n + 1)), FirstFree(v.held, n + 1);
    assert InRange(v1);
    var run := ReleaseRun(v1, verdicts, k);
    RunReleases(v1, verdicts, k);
    RunInRange(v1, verdicts, k);
    RunStopsAt(v1, verdicts, k);
    PartCut(v1, n + 1, q, run);
    SameAbove(v.held, q, run.v.held);
    RunWilling(v1, run);
  }

  lemma {:induction false} RunWilling(v: WindowView, r: WindowStep)
    requires Releases(v, r)
    ensures r.outcome == Continue && InRange(r.v) && r.v.next.Some?
  {
  }

  /** Any other number. */
  lemma {:induction false} OtherLeaves(v: WindowView, msg: Message, now: nat, verdicts: Verdicts, k: nat)
    requires Willing(verdicts) && InRange(v) && v.len > 0 && Usable(msg) && v.next.Some? && v.next != msg.seqNum
    ensures var r, next := Offer(v, msg, now, verdicts, k).step, NextAfter(v, msg, now);
            && r.v.next == Some(next)
            && r.v.held == if IsHeld(v, msg, now) then Above(v.held, next)[msg.seqNum.value := Held(now + v.maxWait, msg)]
                           else Above(v.held, next)
  {
    hide Expire, OfferLater, ExpectedAt, InRange, ComesLate, Above, FirstFree;
    AboveAll(v);
    assert v.(next := Some(v.next.value), held := Above(v.held, v.next.value)) == v;
    var p := ExpectedAt(v, now);
    ExpireLeaves(v, now, verdicts, k);
    var e := Expire(v, now, verdicts, k);
    SameAbove(v.held, p, e.v.held);
    LateWhen(v, msg, now, verdicts, k);
    LaterLeaves(e.v, msg, now, verdicts, k + |e.released|);
    KeepsWait(v, now, verdicts, k);
    if msg.seqNum.value > p + v.len {
      AboveTwice(v.held, p, msg.seqNum.value + 1);
    }
  }

  lemma {:induction false} KeepsWait(v: WindowView, now: nat, verdicts: Verdicts, k: nat)
    ensures Expire(v, now, verdicts, k).v.maxWait == v.maxWait
  {
  }

  lemma {:induction false} LaterLeaves(v: WindowView, msg: Message, now: nat, verdicts: Verdicts, k: nat)
    requires Willing(verdicts) && InRange(v) && v.len > 0 && Usable(msg) && v.next.Some?
    ensures var o, n, next := OfferLater(v, msg, now, verdicts, k), msg.seqNum.value, v.next.value;
            && (n > next + v.len ==> o.step.v.next == Some(n + 1) && o.step.v.held == Above(v.held, n + 1) && !o.late)
            && (n <= next + v.len ==> o.step.v.next == Some(next))
            && (n <= next + v.len && o.late ==> o.step.v.held == v.held == Above(v.held, next))
            && (n <= next + v.len && !o.late ==> next <= n && o.step.v.held == v.held[n := Held(now + v.maxWait, msg)])
            && v.held == Above(v.held, next)
  {
    hide Occupied, OfferFar;
    AboveAll(v);
    var n, next := msg.seqNum.value, v.next.value;
    if n > next + v.len {
      FarLeaves(v, msg, verdicts, k);
    }
  }

  lemma {:induction false} FarLeaves(v: WindowView, msg: Message, verdicts: Verdicts, k: nat)
    requires Willing(verdicts) && InRange(v) && Usable(msg) && v.next.Some? && msg.seqNum.value > v.next.value + v.len
    ensures var r, n := OfferFar(v, msg, verdicts, k), msg.seqNum.value;
            r.v.next == Some(n + 1) && r.v.held == Above(v.held, n + 1)
  {
    hide ReleaseBetween, ReleaseRun, Part;
    var n, t := msg.seqNum.value, v.next.value + v.len;
    BetweenReleases(v, v.next.value, t, verdicts, k);
    var r := ReleaseThrough(v, n - 1, verdicts, k);
    assert r == ReleaseBetween(v, v.next.value, t, verdicts, k);
    PartCut(v, v.next.value, t + 1, r);
    assert r.v.held == map[];
    var v1 := r.v.(next := Some(n + 1));
    RunTakes(v1, verdicts, k + |r.released| + 1);
    assert Above(v.held, n + 1) == map[];
  }

  /**
   * An offer to a window that has begun, other than a repeat of the number expected while it is held: the
   * number expected afterwards is the first one missing behind what was waited for and what has waited too
   * long, or past the offer if that is out of reach. Whatever is held below that is gone, the rest stays,
   * and the offer joins it, with the time it may wait, exactly when it is not late and within reach.
   */
  lemma {:induction false} OfferLeaves(v: WindowView, msg: Message, now: nat, verdicts: Verdicts, k: nat)
    requires Willing(verdicts) && InRange(v) && v.len > 0 && Usable(msg) && v.next.Some? && !Repeats(v, msg)
    ensures var r, next := Offer(v, msg, now, verdicts, k).step, NextAfter(v, msg, now);
            && r.v.next == Some(next)
            && r.v.held == if IsHeld(v, msg, now) then Above(v.held, next)[msg.seqNum.value := Held(now + v.maxWait, msg)]
                           else Above(v.held, next)
  {
    hide OfferNext, OfferLater, Expire, ExpectedAt, InRange, ComesLate, Above, FirstFree, LeftAt;
    if v.next == msg.seqNum {
      NextLeaves(v, msg, now, verdicts, k);
    } else {
      OtherLeaves(v, msg, now, verdicts, k);
    }
  }

  /** Nothing waits that could go: the number expected is not held. */
  predicate Prompt(v: WindowView) {
    v.next.Some? ==> v.next.value !in v.held
  }

  /**
   * So an offer to a window in which nothing waits that could go leaves one like it if and only if it is not,
   * of all numbers, the one that comes to be expected when something has waited too long: that one is held,
   * though its turn has come.
   */
  lemma {:induction false} PromptWhen(v: WindowView, msg: Message, now: nat, verdicts: Verdicts, k: nat)
    requires Willing(verdicts) && InRange(v) && Prompt(v) && v.len > 0 && Usable(msg) && v.next.Some?
    ensures var n, p := msg.seqNum.value, ExpectedAt(v, now);
            Prompt(Offer(v, msg, now, verdicts, k).step.v)
            <==> !(v.next.value != n && n == p && p + v.len !in v.held)
  {
    hide Offer, Above, InRange, FirstFree;
    OfferLeaves(v, msg, now, verdicts, k);
    AboveAll(v);
    assert v.(next := Some(v.next.value), held := Above(v.held, v.next.value)) == v;
    ExpectedFree(v, now);
    LeftFree(v, msg, now);
    AboveHas(v.held, NextAfter(v, msg, now));
  }

  /** Such an offer: a window of one slot holds 3, waiting for 2, and 3 has waited long enough when 4 comes. */
  lemma {:induction false} HeldThoughExpected(verdicts: Verdicts)
    requires Willing(verdicts)
    ensures var v := WindowView(1, 10, map[3 := Held(10, Numbered(3))], Some(2));
            InRange(v) && Prompt(v) && !Prompt(Offer(v, Numbered(4), 10, verdicts, 0).step.v)
  {
    hide Offer;
    LateThoughNeitherPassedNorHeld(verdicts);
  }

  lemma {:induction false} AboveHas(held: map<nat, Held>, q: nat)
    ensures forall n :: n in Above(held, q) <==> n in held && n >= q
  {
  }

  lemma {:induction false} ExpectedFree(v: WindowView, now: nat)
    requires Prompt(v) && v.next.Some?
    ensures ExpectedAt(v, now) !in v.held
  {
    hide FirstFree;
  }

  /** Wherever an offer leaves the window, the number expected was not held. */
  lemma {:induction false} LeftFree(v: WindowView, msg: Message, now: nat)
    requires InRange(v) && Prompt(v) && v.next.Some? && Usable(msg)
    ensures NextAfter(v, msg, now) !in v.held
  {
    hide FirstFree;
    var n := msg.seqNum.value;
    var q := ReachedBy(v, n);
    var w := v.(next := Some(q), held := Above(v.held, q));
    ExpectedFree(w, now);
    if n != v.next.value {
      AboveAll(v);
      ExpectedFrom(v, now);
    } else {
      assert InRange(w);
      ExpectedFrom(w, now);
    }
  }
}
