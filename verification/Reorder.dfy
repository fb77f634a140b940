/**
 * The reorder window (reorder.rs). `WindowView` is the window as a map from numbers to what is held
 * under them; `ReorderWindow` is the ring of slots, and each of its methods does what the map does.
 */
module Reordering {
  import opened FixMessage
  import opened Session

  datatype Held = Held(expires: nat, msg: Message)

  /** What a window holds, as a map from number to message. */
  datatype WindowView = WindowView(len: nat, maxWait: nat, held: map<nat, Held>, next: Option<nat>)

  /** What `release` answers to the `k`th message it is given. */
  type Verdicts = nat -> Outcome

  /** The window a call leaves, what it released, and how the last release went. */
  datatype WindowStep = WindowStep(v: WindowView, released: seq<Message>, outcome: Outcome)

  datatype Offered = Taken(outcome: Outcome) | Late(msg: Message)

  /** `next ..= next + len`: one more number than there are slots. */
  ghost predicate InRange(v: WindowView) {
    && (forall n :: n in v.held ==> v.next.Some? && v.next.value <= n <= v.next.value + v.len)
    && (forall n :: n in v.held ==> v.held[n].msg.seqNum == Some(n))
  }

  predicate Occupied(v: WindowView, n: nat)
    requires v.len > 0
  {
    exists m :: m in v.held && m % v.len == n % v.len
  }

  // ---------------------------------------------------------------------
  // What each call does
  // ---------------------------------------------------------------------

  /** What goes out from `next` on without a break, once `k` messages have. */
  function ReleaseRun(v: WindowView, verdicts: Verdicts, k: nat): (r: WindowStep)
    ensures r.v == v.(held := r.v.held, next := r.v.next)
    decreases |v.held|
  {
    if v.next.None? || v.next.value !in v.held then WindowStep(v, [], Continue)
    else
      var n := v.next.value;
      Shrinks(v.held, n);
      var v1, msg := v.(held := v.held - {n}, next := Some(n + 1)), v.held[n].msg;
      if verdicts(k) != Continue then WindowStep(v1, [msg], verdicts(k))
      else
        var rest := ReleaseRun(v1, verdicts, k + 1);
        WindowStep(rest.v, [msg] + rest.released, rest.outcome)
  }

  lemma {:induction false} Shrinks(held: map<nat, Held>, n: nat)
    requires n in held
    ensures |held - {n}| == |held| - 1
  {
    assert (held - {n}).Keys == held.Keys - {n};
  }

  lemma {:induction false} Grows(held: map<nat, Held>, n: nat, h: Held)
    requires n !in held
    ensures |held[n := h]| == |held| + 1
  {
    assert held[n := h].Keys == held.Keys + {n};
  }

  /** The held messages numbered from `lo` to `hi`, lowest first. */
  function ReleaseBetween(v: WindowView, lo: nat, hi: nat, verdicts: Verdicts, k: nat): (r: WindowStep)
    ensures r.v == v.(held := r.v.held)
    decreases hi + 1 - lo
  {
    if lo > hi then WindowStep(v, [], Continue)
    else if lo !in v.held then ReleaseBetween(v, lo + 1, hi, verdicts, k)
    else
      var v1, msg := v.(held := v.held - {lo}), v.held[lo].msg;
      if verdicts(k) != Continue then WindowStep(v1, [msg], verdicts(k))
      else
        var rest := ReleaseBetween(v1, lo + 1, hi, verdicts, k + 1);
        WindowStep(rest.v, [msg] + rest.released, rest.outcome)
  }

  function ReleaseThrough(v: WindowView, through: nat, verdicts: Verdicts, k: nat): (r: WindowStep)
    ensures r.v == v.(held := r.v.held)
  {
    if v.next.None? then WindowStep(v, [], Continue)
    else
      var last := if through < v.next.value + v.len then through else v.next.value + v.len;
      ReleaseBetween(v, v.next.value, last, verdicts, k)
  }

  function Expired(v: WindowView, now: nat): set<nat> {
    set n | n in v.held && v.held[n].expires <= now
  }

  ghost predicate IsGreatest(m: nat, s: set<nat>) {
    m in s && forall n :: n in s ==> n <= m
  }

  lemma {:induction false} GreatestExists(s: set<nat>)
    requires s != {}
    ensures exists m :: IsGreatest(m, s)
    decreases |s|
  {
    var x :| x in s;
    var rest := s - {x};
    assert s == rest + {x};
    if rest == {} {
      assert IsGreatest(x, s);
    } else {
      GreatestExists(rest);
      var m :| IsGreatest(m, rest);
      assert IsGreatest(if m < x then x else m, s);
    }
  }

  ghost function Greatest(s: set<nat>): (m: nat)
    requires s != {}
    ensures IsGreatest(m, s)
  {
    GreatestExists(s);
    var m :| IsGreatest(m, s);
    m
  }

  /** Give up on the gap ahead of what has waited too long: release it and everything behind it. */
  ghost function Expire(v: WindowView, now: nat, verdicts: Verdicts, k: nat): (r: WindowStep)
    ensures r.v == v.(held := r.v.held, next := r.v.next)
  {
    if Expired(v, now) == {} then WindowStep(v, [], Continue)
    else
      var through := Greatest(Expired(v, now));
      var r := ReleaseThrough(v, through, verdicts, k);
      if r.outcome != Continue then r
      else
        var rest := ReleaseRun(r.v.(next := Some(through + 1)), verdicts, k + |r.released|);
        WindowStep(rest.v, r.released + rest.released, rest.outcome)
  }

  /** A number the window can place. */
  predicate Usable(msg: Message) {
    msg.seqNum.Some? && msg.seqNum.value > 0
  }

  /** What becomes of an offered message, besides what is released. */
  datatype OfferStep = OfferStep(step: WindowStep, late: bool)

  /** An offer of the very number awaited: it, its run, and then whatever is overdue. */
  ghost function OfferNext(v: WindowView, msg: Message, now: nat, verdicts: Verdicts, k: nat): WindowStep
    requires Usable(msg)
  {
    var v1 := v.(next := Some(msg.seqNum.value + 1));
    if verdicts(k) != Continue then WindowStep(v1, [msg], verdicts(k))
    else
      var run := ReleaseRun(v1, verdicts, k + 1);
      if run.outcome != Continue then WindowStep(run.v, [msg] + run.released, run.outcome)
      else
        var rest := Expire(run.v, now, verdicts, k + 1 + |run.released|);
        WindowStep(rest.v, [msg] + run.released + rest.released, rest.outcome)
  }

  /** An offer beyond the ring: all that is held goes out, and then the offer. */
  function OfferFar(v: WindowView, msg: Message, verdicts: Verdicts, k: nat): WindowStep
    requires Usable(msg)
  {
    var n := msg.seqNum.value;
    var r := ReleaseThrough(v, n - 1, verdicts, k);
    if r.outcome != Continue then r
    else
      var v1, k1 := r.v.(next := Some(n + 1)), k + |r.released|;
      if verdicts(k1) != Continue then WindowStep(v1, r.released + [msg], verdicts(k1))
      else
        var run := ReleaseRun(v1, verdicts, k1 + 1);
        WindowStep(run.v, r.released + [msg] + run.released, run.outcome)
  }

  /** Nothing has expired, and the message is not the one expected. */
  function OfferLater(v: WindowView, msg: Message, now: nat, verdicts: Verdicts, k: nat): OfferStep
    requires Usable(msg) && v.len > 0
  {
    var n := msg.seqNum.value;
    if v.next.None? then
      OfferStep(WindowStep(v.(next := Some(n + 1)), [msg], verdicts(k)), false)
    else if n < v.next.value then OfferStep(WindowStep(v, [], Continue), true)
    else if n - v.next.value > v.len then OfferStep(OfferFar(v, msg, verdicts, k), false)
    else if Occupied(v, n) then OfferStep(WindowStep(v, [], Continue), true)
    else OfferStep(WindowStep(v.(held := v.held[n := Held(now + v.maxWait, msg)]), [], Continue), false)
  }

  ghost function Offer(v: WindowView, msg: Message, now: nat, verdicts: Verdicts, k: nat): OfferStep {
    if v.len == 0 || !Usable(msg) then OfferStep(WindowStep(v, [msg], verdicts(k)), false)
    else if v.next == msg.seqNum then OfferStep(OfferNext(v, msg, now, verdicts, k), false)
    else
      var e := Expire(v, now, verdicts, k);
      if e.outcome != Continue then OfferStep(e, false)
      else
        var r := OfferLater(e.v, msg, now, verdicts, k + |e.released|);
        OfferStep(WindowStep(r.step.v, e.released + r.step.released, r.step.outcome), r.late)
  }

  // ---------------------------------------------------------------------
  // The machine
  // ---------------------------------------------------------------------

  /** Where released messages go; it may answer anything. */
  class Outlet {
    const verdicts: Verdicts
    var sent: seq<Message>

    constructor (verdicts: Verdicts)
      ensures this.verdicts == verdicts && sent == []
    {
      this.verdicts, sent := verdicts, [];
    }

    method Release(msg: Message) returns (outcome: Outcome)
      modifies this`sent
      ensures sent == old(sent) + [msg] && outcome == verdicts(old(|sent|))
    {
      outcome := verdicts(|sent|);
      sent := sent + [msg];
    }
  }

  datatype Slot = Slot(seqNum: nat, held: Held)

  /** `earliest` is the least expiry of what is held. */
  ghost predicate IsEarliest(earliest: Option<nat>, held: map<nat, Held>) {
    match earliest
    case None => held == map[]
    case Some(e) => (exists n :: n in held && held[n].expires == e) && forall n :: n in held ==> e <= held[n].expires
  }

  class ReorderWindow {
    const maxWait: nat
    const slots: array<Option<Slot>>
    var held: nat
    var next: Option<nat>
    var earliest: Option<nat>
    ghost var contents: map<nat, Held>

    /** Each held number is in its own slot, and each filled slot holds a held number. */
    ghost predicate Stored()
      reads this`contents, slots
    {
      && (forall n :: n in contents ==> slots.Length > 0 && slots[n % slots.Length] == Some(Slot(n, contents[n])))
      && (forall i :: 0 <= i < slots.Length && slots[i].Some? ==>
            slots[i].value.seqNum in contents && slots[i].value.seqNum % slots.Length == i)
    }

    ghost predicate Valid()
      reads this`contents, this`held, this`earliest, slots
    {
      Stored() && held == |contents| && IsEarliest(earliest, contents)
    }

    ghost function View(): WindowView
      reads this
    {
      WindowView(slots.Length, maxWait, contents, next)
    }

    ghost predicate Reached(r: WindowStep, before: seq<Message>, out: Outlet, outcome: Outcome)
      reads this, out
    {
      View() == r.v && out.sent == before + r.released && outcome == r.outcome
    }

    constructor (maxHeld: nat, maxWait: nat)
      ensures Valid() && fresh(slots) && View() == WindowView(maxHeld, maxWait, map[], None)
    {
      this.maxWait := maxWait;
      slots := new Option<Slot>[maxHeld](_ => None);
      held, next, earliest, contents := 0, None, None, map[];
    }

    /** The least expiry in the slots. */
    method EarliestInSlots() returns (e: Option<nat>)
      requires Stored()
      ensures IsEarliest(e, contents)
    {
      e := None;
      ghost var from := 0;
      for i := 0 to slots.Length
        invariant e.None? ==> forall j :: 0 <= j < i ==> slots[j].None?
        invariant e.Some? ==> 0 <= from < i && slots[from].Some? && slots[from].value.held.expires == e.value
        invariant e.Some? ==> forall j :: 0 <= j < i && slots[j].Some? ==> e.value <= slots[j].value.held.expires
      {
        if slots[i].Some? && (e.None? || slots[i].value.held.expires < e.value) {
          e := Some(slots[i].value.held.expires);
          from := i;
        }
      }
      assert forall n :: n in contents ==> 0 <= n % slots.Length < slots.Length;
      if e.Some? {
        assert slots[from].value.seqNum in contents;
      } else {
        assert forall n :: n !in contents;
      }
    }

    /** Take the message held under `n`, if there is one. */
    method Take(n: nat) returns (msg: Option<Message>)
      requires Valid() && slots.Length > 0
      modifies this`held, this`earliest, this`contents, slots
      ensures Valid()
      ensures contents == old(contents) - {n}
      ensures n !in old(contents) ==> contents == old(contents)
      ensures msg == if n in old(contents) then Some(old(contents)[n].msg) else None
      ensures msg.Some? ==> held == old(held) - 1
    {
      var i := n % slots.Length;
      if slots[i].None? || slots[i].value.seqNum != n {
        assert n !in contents;
        assert contents - {n} == contents;
        return None;
      }
      var taken := slots[i].value.held;
      Shrinks(contents, n);
      ghost var was := contents;
      slots[i] := None;
      contents := contents - {n};
      held := held - 1;
      assert Stored();
      if held == 0 {
        earliest := None;
        assert contents == map[];
      } else if earliest == Some(taken.expires) {
        earliest := EarliestInSlots();
      } else {
        StillEarliest(earliest, was, n);
      }
      return Some(taken.msg);
    }

    /** Take the message held under `n` and release it, if there is one. */
    method TakeAndRelease(n: nat, out: Outlet) returns (outcome: Option<Outcome>)
      requires Valid() && held > 0
      modifies this`held, this`earliest, this`contents, slots, out`sent
      ensures Valid()
      ensures outcome.Some? <==> n in old(contents)
      ensures outcome.None? ==> contents == old(contents) && held == old(held) && out.sent == old(out.sent)
      ensures outcome.Some? ==>
                && contents == old(contents) - {n} && held == old(held) - 1
                && out.sent == old(out.sent) + [old(contents)[n].msg]
                && outcome.value == out.verdicts(old(|out.sent|))
    {
      HeldNeedsSlots();
      hide Stored, IsEarliest;
      var msg := Take(n);
      if msg.None? {
        return None;
      }
      var o := out.Release(msg.value);
      return Some(o);
    }

    lemma {:induction false} HeldNeedsSlots()
      requires Valid() && held > 0
      ensures slots.Length > 0
    {
      var n :| n in contents;
    }

    lemma {:induction false} HeldNothing()
      requires Valid() && held == 0
      ensures contents == map[]
    {
    }

    /** `ReleaseRun`, slot by slot. */
    method RunOn(out: Outlet) returns (outcome: Outcome)
      requires Valid()
      modifies this`held, this`next, this`earliest, this`contents, slots, out`sent
      ensures Valid()
      ensures Reached(ReleaseRun(old(View()), out.verdicts, old(|out.sent|)), old(out.sent), out, outcome)
    {
      hide ReleaseRun, Valid;
      ghost var all := ReleaseRun(View(), out.verdicts, |out.sent|);
      ghost var done: seq<Message> := [];
      while held > 0
        invariant Valid()
        invariant out.sent == old(out.sent) + done
        invariant ReleaseRun(View(), out.verdicts, |out.sent|).v == all.v
        invariant all.released == done + ReleaseRun(View(), out.verdicts, |out.sent|).released
        invariant ReleaseRun(View(), out.verdicts, |out.sent|).outcome == all.outcome
        decreases held
      {
        RunUnfolds(View(), out.verdicts, |out.sent|);
        if next.None? {
          return Continue;
        }
        ghost var was := contents;
        var n := next.value;
        var one := TakeAndRelease(n, out);
        if one.None? {
          return Continue;
        }
        next := Some(n + 1);
        done := done + [was[n].msg];
        if one.value != Continue {
          return one.value;
        }
      }
      HeldNothing();
      RunUnfolds(View(), out.verdicts, |out.sent|);
      return Continue;
    }

    /** Release everything held from `lo` up to and including `last`, in order. */
    method Between(lo: nat, last: nat, out: Outlet) returns (outcome: Outcome)
      requires Valid()
      modifies this`held, this`earliest, this`contents, slots, out`sent
      ensures Valid()
      ensures Reached(ReleaseBetween(old(View()), lo, last, out.verdicts, old(|out.sent|)), old(out.sent), out, outcome)
    {
      hide ReleaseBetween, Valid;
      ghost var all := ReleaseBetween(View(), lo, last, out.verdicts, |out.sent|);
      ghost var done: seq<Message> := [];
      var n := lo;
      while n <= last
        invariant Valid()
        invariant out.sent == old(out.sent) + done
        invariant ReleaseBetween(View(), n, last, out.verdicts, |out.sent|).v == all.v
        invariant all.released == done + ReleaseBetween(View(), n, last, out.verdicts, |out.sent|).released
        invariant ReleaseBetween(View(), n, last, out.verdicts, |out.sent|).outcome == all.outcome
        decreases last + 1 - n
      {
        if held == 0 {
          HeldNothing();
          BetweenNothing(View(), n, last, out.verdicts, |out.sent|);
          return Continue;
        }
        BetweenUnfolds(View(), n, last, out.verdicts, |out.sent|);
        ghost var was := contents;
        var one := TakeAndRelease(n, out);
        if one.Some? {
          done := done + [was[n].msg];
          if one.value != Continue {
            return one.value;
          }
        }
        n := n + 1;
      }
      BetweenPast(View(), n, last, out.verdicts, |out.sent|);
      return Continue;
    }

    /** `ReleaseThrough`, slot by slot; `next` is not moved here. */
    method Through(through: nat, out: Outlet) returns (outcome: Outcome)
      requires Valid()
      modifies this`held, this`earliest, this`contents, slots, out`sent
      ensures Valid()
      ensures Reached(ReleaseThrough(old(View()), through, out.verdicts, old(|out.sent|)), old(out.sent), out, outcome)
    {
      hide ReleaseBetween, Valid;
      if next.None? {
        return Continue;
      }
      var last := if through < next.value + slots.Length then through else next.value + slots.Length;
      outcome := Between(next.value, last, out);
    }

    /** The greatest number held that has expired. */
    method LastExpired(now: nat) returns (through: Option<nat>)
      requires Valid()
      ensures through.None? <==> Expired(View(), now) == {}
      ensures through.Some? ==> IsGreatest(through.value, Expired(View(), now))
    {
      through := None;
      for i := 0 to slots.Length
        invariant through.None? ==> forall j :: 0 <= j < i && slots[j].Some? ==> slots[j].value.held.expires > now
        invariant through.Some? ==> through.value in Expired(View(), now)
        invariant through.Some? ==> forall j :: 0 <= j < i && slots[j].Some? && slots[j].value.held.expires <= now ==>
                                      slots[j].value.seqNum <= through.value
      {
        if slots[i].Some? && slots[i].value.held.expires <= now {
          assert slots[i].value.seqNum in contents;
          if through.None? || slots[i].value.seqNum > through.value {
            through := Some(slots[i].value.seqNum);
          }
        }
      }
      assert forall n :: n in Expired(View(), now) ==> 0 <= n % slots.Length < slots.Length;
    }

    lemma {:induction false} NothingExpired(now: nat)
      requires Valid() && (earliest.None? || earliest.value > now)
      ensures Expired(View(), now) == {}
    {
    }

    /** `Expire`, on the ring. */
    method ExpireUpTo(now: nat, out: Outlet) returns (outcome: Outcome)
      requires Valid()
      modifies this`held, this`next, this`earliest, this`contents, slots, out`sent
      ensures Valid()
      ensures Reached(Expire(old(View()), now, out.verdicts, old(|out.sent|)), old(out.sent), out, outcome)
    {
      hide ReleaseThrough, ReleaseRun, Valid, Expired;
      if earliest.None? || earliest.value > now {
        NothingExpired(now);
        return Continue;
      }
      var through := LastExpired(now);
      if through.None? {
        return Continue;
      }
      assert through.value == Greatest(Expired(View(), now));
      outcome := Through(through.value, out);
      if outcome != Continue {
        return;
      }
      next := Some(through.value + 1);
      outcome := RunOn(out);
    }

    method TakeNext(msg: Message, now: nat, out: Outlet) returns (outcome: Outcome)
      requires Valid() && Usable(msg)
      modifies this`held, this`next, this`earliest, this`contents, slots, out`sent
      ensures Valid()
      ensures Reached(OfferNext(old(View()), msg, now, out.verdicts, old(|out.sent|)), old(out.sent), out, outcome)
    {
      hide ReleaseRun, Expire, Valid;
      next := Some(msg.seqNum.value + 1);
      outcome := out.Release(msg);
      if outcome != Continue {
        return;
      }
      outcome := RunOn(out);
      if outcome != Continue {
        return;
      }
      outcome := ExpireUpTo(now, out);
    }

    method TakeFar(msg: Message, out: Outlet) returns (outcome: Outcome)
      requires Valid() && Usable(msg)
      modifies this`held, this`next, this`earliest, this`contents, slots, out`sent
      ensures Valid()
      ensures Reached(OfferFar(old(View()), msg, out.verdicts, old(|out.sent|)), old(out.sent), out, outcome)
    {
      hide ReleaseRun, ReleaseThrough, Valid;
      outcome := Through(msg.seqNum.value - 1, out);
      if outcome != Continue {
        return;
      }
      next := Some(msg.seqNum.value + 1);
      outcome := out.Release(msg);
      if outcome != Continue {
        return;
      }
      outcome := RunOn(out);
    }

    /** Put a message in its slot, which is free. */
    method Place(n: nat, h: Held)
      requires Stored() && slots.Length > 0 && slots[n % slots.Length].None?
      modifies this`contents, slots
      ensures Stored() && contents == old(contents)[n := h] && n !in old(contents)
    {
      var i := n % slots.Length;
      assert forall m :: m in contents ==> m % slots.Length != i;
      slots[i] := Some(Slot(n, h));
      contents := contents[n := h];
    }

    method Keep(msg: Message, now: nat)
      requires Valid() && Usable(msg) && slots.Length > 0 && slots[msg.seqNum.value % slots.Length].None?
      modifies this`held, this`earliest, this`contents, slots
      ensures Valid()
      ensures contents == old(contents)[msg.seqNum.value := Held(now + maxWait, msg)]
    {
      hide Stored, IsEarliest;
      var n, expires := msg.seqNum.value, now + maxWait;
      ghost var was := contents;
      Place(n, Held(expires, msg));
      Grows(was, n, Held(expires, msg));
      held := held + 1;
      EarliestWith(earliest, was, n, Held(expires, msg));
      earliest := Some(if earliest.None? || expires < earliest.value then expires else earliest.value);
    }

    method TakeLater(msg: Message, now: nat, out: Outlet) returns (r: Offered)
      requires Valid() && Usable(msg) && slots.Length > 0
      modifies this`held, this`next, this`earliest, this`contents, slots, out`sent
      ensures Valid()
      ensures var o := OfferLater(old(View()), msg, now, out.verdicts, old(|out.sent|));
              && View() == o.step.v && out.sent == old(out.sent) + o.step.released
              && r == if o.late then Late(msg) else Taken(o.step.outcome)
    {
      hide OfferFar, IsEarliest;
      var n := msg.seqNum.value;
      if next.None? {
        next := Some(n + 1);
        var outcome := out.Release(msg);
        return Taken(outcome);
      }
      if n < next.value {
        return Late(msg);
      }
      if n - next.value > slots.Length {
        var outcome := TakeFar(msg, out);
        return Taken(outcome);
      }
      SlotTaken(n);
      if slots[n % slots.Length].Some? {
        return Late(msg);
      }
      Keep(msg, now);
      return Taken(Continue);
    }

    lemma {:induction false} SlotTaken(n: nat)
      requires Valid() && slots.Length > 0
      ensures slots[n % slots.Length].Some? <==> Occupied(View(), n)
    {
      if slots[n % slots.Length].Some? {
        assert slots[n % slots.Length].value.seqNum in contents;
      }
    }

    /** `Offer`, on the ring. */
    method OfferMessage(msg: Message, now: nat, out: Outlet) returns (r: Offered)
      requires Valid()
      modifies this`held, this`next, this`earliest, this`contents, slots, out`sent
      ensures Valid()
      ensures var o := Offer(old(View()), msg, now, out.verdicts, old(|out.sent|));
              && View() == o.step.v && out.sent == old(out.sent) + o.step.released
              && r == if o.late then Late(msg) else Taken(o.step.outcome)
    {
      hide OfferNext, Expire, OfferLater, Valid;
      if slots.Length == 0 || !Usable(msg) {
        var outcome := out.Release(msg);
        return Taken(outcome);
      }
      if next == Some(msg.seqNum.value) {
        var outcome := TakeNext(msg, now, out);
        return Taken(outcome);
      }
      var outcome := ExpireUpTo(now, out);
      if outcome != Continue {
        return Taken(outcome);
      }
      r := TakeLater(msg, now, out);
    }
  }

  lemma {:induction false} RunUnfolds(v: WindowView, verdicts: Verdicts, k: nat)
    ensures v.next.None? || v.next.value !in v.held ==> ReleaseRun(v, verdicts, k) == WindowStep(v, [], Continue)
    ensures v.next.Some? && v.next.value in v.held ==>
              var n := v.next.value;
              var v1, msg := v.(held := v.held - {n}, next := Some(n + 1)), v.held[n].msg;
              var rest := ReleaseRun(v1, verdicts, k + 1);
              ReleaseRun(v, verdicts, k)
              == if verdicts(k) != Continue then WindowStep(v1, [msg], verdicts(k))
                 else WindowStep(rest.v, [msg] + rest.released, rest.outcome)
  {
  }

  lemma {:induction false} BetweenUnfolds(v: WindowView, lo: nat, hi: nat, verdicts: Verdicts, k: nat)
    requires lo <= hi
    ensures lo !in v.held ==>
              ReleaseBetween(v, lo, hi, verdicts, k) == ReleaseBetween(v, lo + 1, hi, verdicts, k)
    ensures lo in v.held ==>
              var v1, msg := v.(held := v.held - {lo}), v.held[lo].msg;
              var rest := ReleaseBetween(v1, lo + 1, hi, verdicts, k + 1);
              ReleaseBetween(v, lo, hi, verdicts, k)
              == if verdicts(k) != Continue then WindowStep(v1, [msg], verdicts(k))
                 else WindowStep(rest.v, [msg] + rest.released, rest.outcome)
  {
  }

  lemma {:induction false} BetweenPast(v: WindowView, lo: nat, hi: nat, verdicts: Verdicts, k: nat)
    requires lo > hi
    ensures ReleaseBetween(v, lo, hi, verdicts, k) == WindowStep(v, [], Continue)
  {
  }

  lemma {:induction false} BetweenNothing(v: WindowView, lo: nat, hi: nat, verdicts: Verdicts, k: nat)
    requires v.held == map[]
    ensures ReleaseBetween(v, lo, hi, verdicts, k) == WindowStep(v, [], Continue)
    decreases hi + 1 - lo
  {
    if lo <= hi {
      BetweenNothing(v, lo + 1, hi, verdicts, k);
    }
  }

  lemma {:induction false} StillEarliest(earliest: Option<nat>, held: map<nat, Held>, n: nat)
    requires IsEarliest(earliest, held) && n in held && earliest != Some(held[n].expires)
    ensures IsEarliest(earliest, held - {n})
  {
    var e := earliest.value;
    var m :| m in held && held[m].expires == e;
    assert m in held - {n};
  }

  lemma {:induction false} EarliestWith(earliest: Option<nat>, held: map<nat, Held>, n: nat, h: Held)
    requires IsEarliest(earliest, held) && n !in held
    ensures IsEarliest(Some(if earliest.None? || h.expires < earliest.value then h.expires else earliest.value), held[n := h])
  {
    var held' := held[n := h];
    assert n in held';
    if earliest.Some? {
      var m :| m in held && held[m].expires == earliest.value;
      assert m in held' && held'[m] == held[m];
    }
  }
}
