/**
 * Whole runs of a sequencer. An action is one thing that can happen to it: a message to send, a
 * write completing or failing, one ready message being handed to the session, an event coming
 * back from the session, a message handled, a watermark written. The calls of sequencer.rs are
 * sequences of these, whatever the session and the store do.
 */
module SequencerRuns {
  import opened FixMessage
  import opened Session
  import opened Sequencing

  datatype Action =
    | Submit(msg: Message, clock: nat)
    | SubmitRaw(msg: Message, clock: nat)
    | WriteDone(seqNum: nat)
    | WriteFailed
    | Hand
    | FromSession(event: Event, clock: nat)
    | Finish(seqNum: nat)
    | WatermarkDone(nextIn: nat)

  ghost function Act(q: SeqView, a: Action): SeqStep {
    match a
    case Submit(msg, clock) => SendNew(q, msg, clock)
    case SubmitRaw(msg, clock) => SendRaw(q, msg, clock)
    case WriteDone(n) => Written(q, n)
    case WriteFailed => SeqStep(q.(failed := true), [], true)
    case Hand => if CanPop(q) then SeqStep(q.(ready := q.ready[1..]), [], true) else SeqStep(q, [], true)
    case FromSession(event, clock) => OnSessionEvent(q, event, clock)
    case Finish(n) => Handled(q, n)
    case WatermarkDone(nextIn) => WatermarkWritten(q, nextIn)
  }

  ghost function AfterActions(q: SeqView, actions: seq<Action>): SeqView {
    if actions == [] then q
    else Act(AfterActions(q, actions[..|actions| - 1]), actions[|actions| - 1]).q
  }

  /** What the application is told on the way. */
  ghost function ToldBy(q: SeqView, actions: seq<Action>): seq<SeqEvent> {
    if actions == [] then []
    else
      var before := actions[..|actions| - 1];
      ToldBy(q, before) + Act(AfterActions(q, before), actions[|actions| - 1]).out
  }

  lemma {:induction false} ActionsThen(q: SeqView, a: seq<Action>, b: seq<Action>)
    ensures AfterActions(q, a + b) == AfterActions(AfterActions(q, a), b)
    ensures ToldBy(q, a + b) == ToldBy(q, a) + ToldBy(AfterActions(q, a), b)
    decreases |b|
  {
    hide Act;
    if b == [] {
      assert a + b == a;
    } else {
      assert (a + b)[..|a + b| - 1] == a + b[..|b| - 1];
      ActionsThen(q, a, b[..|b| - 1]);
    }
  }

  lemma {:induction false} OneAction(q: SeqView, a: Action)
    ensures AfterActions(q, [a]) == Act(q, a).q && ToldBy(q, [a]) == Act(q, a).out
  {
    hide Act;
    assert [a][..0] == [];
  }

  /** A session call's events, up to the first that is refused. */
  ghost function PassActions(q: SeqView, log: seq<Output>, clock: nat): seq<Action>
    decreases |log|
  {
    if log == [] then []
    else if log[0].Transmit? then PassActions(q, log[1..], clock)
    else
      var first := OnSessionEvent(q, log[0].event, clock);
      [FromSession(log[0].event, clock)] + if first.ok then PassActions(first.q, log[1..], clock) else []
  }

  lemma {:induction false} PassOnIsActions(q: SeqView, log: seq<Output>, clock: nat)
    ensures var r, actions := PassOn(q, log, clock), PassActions(q, log, clock);
            AfterActions(q, actions) == r.q && ToldBy(q, actions) == r.out
    decreases |log|
  {
    if log != [] {
      if log[0].Transmit? {
        PassOnIsActions(q, log[1..], clock);
      } else {
        hide OnSessionEvent;
        var a, first := FromSession(log[0].event, clock), OnSessionEvent(q, log[0].event, clock);
        OneAction(q, a);
        if first.ok {
          PassOnIsActions(first.q, log[1..], clock);
          ActionsThen(q, [a], PassActions(first.q, log[1..], clock));
        } else {
          assert [a] + [] == [a];
        }
      }
    }
  }

  ghost function HandActions(q: SeqView, s: SessionView, now: nat, clock: nat): seq<Action>
    requires s.WellFormed() && CanPop(q)
  {
    [Hand] + PassActions(q.(ready := q.ready[1..]), OnCommand(s, Send(q.ready[0]), now).out, clock)
  }

  lemma {:induction false} HandOverIsActions(q: SeqView, s: SessionView, now: nat, clock: nat)
    requires s.WellFormed() && CanPop(q)
    ensures var one, actions := HandOver(q, s, now, clock), HandActions(q, s, now, clock);
            AfterActions(q, actions) == one.q && ToldBy(q, actions) == one.out
  {
    hide OnCommand, PassOn, PassActions, AfterActions, ToldBy;
    var q1, log := q.(ready := q.ready[1..]), OnCommand(s, Send(q.ready[0]), now).out;
    OneAction(q, Hand);
    PassOnIsActions(q1, log, clock);
    ActionsThen(q, [Hand], PassActions(q1, log, clock));
    assert [] + ToldBy(q1, PassActions(q1, log, clock)) == ToldBy(q1, PassActions(q1, log, clock));
  }

  /** A release: each message handed over, and what comes back of it. */
  ghost function ReleaseActions(q: SeqView, s: SessionView, now: nat, clock: nat): seq<Action>
    requires s.WellFormed()
    decreases |q.ready|
  {
    if !CanPop(q) then []
    else
      var one := HandOver(q, s, now, clock);
      HandActions(q, s, now, clock) + if one.outcome != Continue then [] else ReleaseActions(one.q, one.s, now, clock)
  }

  /** A release is a run of these actions, so what is proved of runs holds of it. */
  lemma {:induction false} ReleasedIsActions(q: SeqView, s: SessionView, now: nat, clock: nat)
    requires s.WellFormed()
    ensures var r, actions := Released(q, s, now, clock), ReleaseActions(q, s, now, clock);
            AfterActions(q, actions) == r.q && ToldBy(q, actions) == r.out
    decreases |q.ready|
  {
    hide HandOver, HandActions, AfterActions, ToldBy;
    if CanPop(q) {
      var one, a := HandOver(q, s, now, clock), HandActions(q, s, now, clock);
      HandOverIsActions(q, s, now, clock);
      if one.outcome == Continue {
        ReleasedIsActions(one.q, one.s, now, clock);
        ActionsThen(q, a, ReleaseActions(one.q, one.s, now, clock));
      } else {
        assert a + [] == a;
      }
    } else {
      NoActions(q);
    }
  }

  lemma {:induction false} NoActions(q: SeqView)
    ensures AfterActions(q, []) == q && ToldBy(q, []) == []
  {
  }

  /** And so is the completion of a write, with the release that follows it. */
  lemma {:induction false} PersistedIsActions(q: SeqView, n: nat, s: SessionView, now: nat, clock: nat)
    requires s.WellFormed() && Written(q, n).ok
    ensures var w := Written(q, n);
            var r, actions := Released(w.q, s, now, clock), [WriteDone(n)] + ReleaseActions(w.q, s, now, clock);
            AfterActions(q, actions) == r.q && ToldBy(q, actions) == w.out + r.out
  {
    hide Written, Released, ReleaseActions;
    OneAction(q, WriteDone(n));
    ReleasedIsActions(Written(q, n).q, s, now, clock);
    ActionsThen(q, [WriteDone(n)], ReleaseActions(Written(q, n).q, s, now, clock));
  }

  // ---------------------------------------------------------------------
  // Persist before send
  // ---------------------------------------------------------------------

  /** What has happened on the way out. */
  datatype History = History(
    numbered: seq<nat>,  // numbers given out, in order
    handed: seq<nat>,    // numbers handed to the session, in order
    reported: set<nat>)  // numbers whose write was reported complete

  function WriteAsked(out: seq<SeqEvent>): seq<nat> {
    if out == [] then []
    else (if out[0].PersistOutbound? then [out[0].seqNum] else []) + WriteAsked(out[1..])
  }

  ghost function Record(h: History, q: SeqView, a: Action): History {
    History(
      h.numbered + WriteAsked(Act(q, a).out),
      if a.Hand? && CanPop(q) && q.ready[0].seqNum.Some? then h.handed + [q.ready[0].seqNum.value] else h.handed,
      if a.WriteDone? && Act(q, a).ok then h.reported + {a.seqNum} else h.reported)
  }

  ghost function HistoryOf(q: SeqView, actions: seq<Action>): History {
    if actions == [] then History([], [], {})
    else
      var before := actions[..|actions| - 1];
      Record(HistoryOf(q, before), AfterActions(q, before), actions[|actions| - 1])
  }

  function ReadyNumbers(ready: seq<Message>): (ns: seq<nat>)
    requires forall i :: 0 <= i < |ready| ==> ready[i].seqNum.Some?
    ensures |ns| == |ready| && forall i :: 0 <= i < |ns| ==> ns[i] == ready[i].seqNum.value
  {
    if ready == [] then [] else [ready[0].seqNum.value] + ReadyNumbers(ready[1..])
  }

  function FlightNumbers(inFlight: seq<InFlight>): (ns: seq<nat>)
    ensures |ns| == |inFlight| && forall i :: 0 <= i < |ns| ==> ns[i] == inFlight[i].seqNum
  {
    if inFlight == [] then [] else [inFlight[0].seqNum] + FlightNumbers(inFlight[1..])
  }

  /** Everything held carries its own number. */
  ghost predicate Labelled(q: SeqView) {
    && (forall i :: 0 <= i < |q.ready| ==> q.ready[i].seqNum.Some?)
    && (forall i :: 0 <= i < |q.inFlight| ==> q.inFlight[i].msg.seqNum == Some(q.inFlight[i].seqNum))
  }

  /** The numbers given out and not yet handed over, in order. */
  ghost function Held(q: SeqView): seq<nat>
    requires Labelled(q)
  {
    ReadyNumbers(q.ready) + FlightNumbers(q.inFlight)
  }

  /** What is ready, and what has been marked, had its own write reported. */
  ghost predicate Backed(q: SeqView, h: History) {
    && (forall i :: 0 <= i < |q.ready| ==> q.ready[i].seqNum.Some? && q.ready[i].seqNum.value in h.reported)
    && (forall i :: 0 <= i < |q.inFlight| && q.inFlight[i].persisted ==> q.inFlight[i].seqNum in h.reported)
    && (forall i :: 0 <= i < |h.handed| ==> h.handed[i] in h.reported)
  }

  ghost predicate Ledger(q: SeqView, h: History, first: nat) {
    && Labelled(q)
    && h.numbered == h.handed + Held(q)
    && StrictlyIncreasing(h.numbered)
    && (forall i :: 0 <= i < |h.numbered| ==> first <= h.numbered[i] < q.nextOut)
    && first <= q.nextOut
    && Backed(q, h)
  }

  lemma {:induction false} NewWriteKept(q: SeqView, h: History, first: nat, q': SeqView, n: nat, msg: Message)
    requires Ledger(q, h, first) && n >= q.nextOut && msg.seqNum == Some(n)
    requires q'.inFlight == q.inFlight + [InFlight(n, msg, false)] && q'.ready == q.ready && q'.nextOut == n + 1
    ensures Ledger(q', h.(numbered := h.numbered + [n]), first)
  {
    NewWriteHeld(q, q', n, msg);
    NewWriteBacked(q, h, q', n, msg);
    hide Backed, Held, Labelled;
    assert h.handed + (Held(q) + [n]) == h.handed + Held(q) + [n];
  }

  lemma {:induction false} NewWriteHeld(q: SeqView, q': SeqView, n: nat, msg: Message)
    requires Labelled(q) && msg.seqNum == Some(n)
    requires q'.inFlight == q.inFlight + [InFlight(n, msg, false)] && q'.ready == q.ready
    ensures Labelled(q') && Held(q') == Held(q) + [n]
  {
    assert FlightNumbers(q'.inFlight) == FlightNumbers(q.inFlight) + [n];
    hide FlightNumbers;
  }

  lemma {:induction false} NewWriteBacked(q: SeqView, h: History, q': SeqView, n: nat, msg: Message)
    requires Backed(q, h) && q'.inFlight == q.inFlight + [InFlight(n, msg, false)] && q'.ready == q.ready
    ensures Backed(q', h.(numbered := h.numbered + [n]))
  {
  }

  /** An action that touches neither queue. */
  lemma {:induction false} QueuesKept(q: SeqView, h: History, first: nat, q': SeqView)
    requires Ledger(q, h, first)
    requires q'.inFlight == q.inFlight && q'.ready == q.ready && q'.nextOut == q.nextOut
    ensures Ledger(q', h, first)
  {
  }

  /** Handing the first ready message over moves its number from what is held to what is handed. */
  lemma {:induction false} HandMoves(q: SeqView)
    requires Labelled(q) && q.ready != []
    ensures Labelled(q.(ready := q.ready[1..]))
    ensures Held(q) == [q.ready[0].seqNum.value] + Held(q.(ready := q.ready[1..]))
  {
  }

  lemma {:induction false} HandKept(q: SeqView, h: History, first: nat)
    requires Ledger(q, h, first) && q.ready != []
    ensures Ledger(q.(ready := q.ready[1..]), h.(handed := h.handed + [q.ready[0].seqNum.value]), first)
  {
    HandMoves(q);
    hide Held;
    var n, q' := q.ready[0].seqNum.value, q.(ready := q.ready[1..]);
    assert h.handed + ([n] + Held(q')) == h.handed + [n] + Held(q');
  }

  lemma {:induction false} WriteKept(q: SeqView, h: History, first: nat, n: nat)
    requires Ledger(q, h, first) && Written(q, n).ok
    ensures Ledger(Written(q, n).q, h.(reported := h.reported + {n}), first)
  {
    var i := Find(q.inFlight, n);
    var marked := q.inFlight[i := q.inFlight[i].(persisted := true)];
    MarkKept(q, h, first, i);
    DrainKept(q.(inFlight := marked), h.(reported := h.reported + {n}), first, DoneCount(marked));
  }

  lemma {:induction false} MarkKept(q: SeqView, h: History, first: nat, i: nat)
    requires Ledger(q, h, first) && i < |q.inFlight|
    ensures Ledger(q.(inFlight := q.inFlight[i := q.inFlight[i].(persisted := true)]),
                   h.(reported := h.reported + {q.inFlight[i].seqNum}), first)
  {
    var marked := q.inFlight[i := q.inFlight[i].(persisted := true)];
    assert FlightNumbers(marked) == FlightNumbers(q.inFlight);
  }

  /** Moving messages from the front of one queue to the back of the other keeps their order. */
  lemma {:induction false} DrainOrder(ready: seq<Message>, inFlight: seq<InFlight>, k: nat)
    requires k <= |inFlight|
    requires forall i :: 0 <= i < |ready| ==> ready[i].seqNum.Some?
    requires forall i :: 0 <= i < |inFlight| ==> inFlight[i].msg.seqNum == Some(inFlight[i].seqNum)
    ensures forall i :: 0 <= i < |ready + Messages(inFlight[..k])| ==> (ready + Messages(inFlight[..k]))[i].seqNum.Some?
    ensures ReadyNumbers(ready + Messages(inFlight[..k])) + FlightNumbers(inFlight[k..])
            == ReadyNumbers(ready) + FlightNumbers(inFlight)
  {
    hide ReadyNumbers, FlightNumbers;
    var moved := Messages(inFlight[..k]);
    hide Messages;
    assert forall i :: 0 <= i < |moved| ==> moved[i] == inFlight[i].msg;
    ReadyAppend(ready, moved);
    assert ReadyNumbers(moved) == FlightNumbers(inFlight)[..k];
    assert FlightNumbers(inFlight[k..]) == FlightNumbers(inFlight)[k..];
  }

  lemma {:induction false} ReadyAppend(a: seq<Message>, b: seq<Message>)
    requires forall i :: 0 <= i < |a| ==> a[i].seqNum.Some?
    requires forall i :: 0 <= i < |b| ==> b[i].seqNum.Some?
    ensures forall i :: 0 <= i < |a + b| ==> (a + b)[i].seqNum.Some?
    ensures ReadyNumbers(a + b) == ReadyNumbers(a) + ReadyNumbers(b)
  {
    hide ReadyNumbers;
  }

  lemma {:induction false} DrainBacked(q: SeqView, h: History, k: nat)
    requires Labelled(q) && Backed(q, h) && k <= |q.inFlight|
    requires forall j :: 0 <= j < k ==> q.inFlight[j].persisted
    ensures Backed(q.(inFlight := q.inFlight[k..], ready := q.ready + Messages(q.inFlight[..k])), h)
  {
  }

  lemma {:induction false} DrainKept(q: SeqView, h: History, first: nat, k: nat)
    requires Ledger(q, h, first) && k <= |q.inFlight|
    requires forall j :: 0 <= j < k ==> q.inFlight[j].persisted
    ensures Ledger(q.(inFlight := q.inFlight[k..], ready := q.ready + Messages(q.inFlight[..k])), h, first)
  {
    DrainBacked(q, h, k);
    DrainOrder(q.ready, q.inFlight, k);
    hide Backed, ReadyNumbers, FlightNumbers, Messages;
  }

  lemma {:induction false} NoWriteAsked(out: seq<SeqEvent>)
    requires forall i :: 0 <= i < |out| ==> !out[i].PersistOutbound?
    ensures WriteAsked(out) == []
  {
    if out != [] {
      NoWriteAsked(out[1..]);
    }
  }

  lemma {:induction false} AssignKept(q: SeqView, h: History, first: nat, msg: Message, clock: nat)
    requires Ledger(q, h, first)
    ensures Ledger(Assign(q, msg, clock).q, h.(numbered := h.numbered + WriteAsked(Assign(q, msg, clock).out)), first)
  {
    if !q.failed {
      NewWriteKept(q, h, first, Assign(q, msg, clock).q, q.nextOut, Stamp(msg.(seqNum := Some(q.nextOut)), clock));
    }
  }

  lemma {:induction false} EventKept(q: SeqView, h: History, first: nat, event: Event, clock: nat)
    requires Ledger(q, h, first)
    ensures var r := OnSessionEvent(q, event, clock);
            Ledger(r.q, h.(numbered := h.numbered + WriteAsked(r.out)), first)
  {
    hide Ledger;
    var r := OnSessionEvent(q, event, clock);
    if event.AdminSendRequired? {
      AssignKept(q, h, first, event.msg, clock);
    } else {
      NoWriteAsked(r.out);
      QueuesKept(q, h, first, r.q);
      assert h.numbered + [] == h.numbered;
    }
  }

  lemma {:induction false} RawKept(q: SeqView, h: History, first: nat, msg: Message, clock: nat)
    requires Ledger(q, h, first)
    ensures Ledger(SendRaw(q, msg, clock).q, h.(numbered := h.numbered + WriteAsked(SendRaw(q, msg, clock).out)), first)
  {
    if SendRaw(q, msg, clock).ok {
      NewWriteKept(q, h, first, SendRaw(q, msg, clock).q, msg.seqNum.value, Stamp(msg, clock));
    }
  }

  lemma {:induction false} ActKept(q: SeqView, h: History, first: nat, a: Action)
    requires Ledger(q, h, first)
    ensures Ledger(Act(q, a).q, Record(h, q, a), first)
  {
    hide Ledger, Written, Assign, SendRaw, OnSessionEvent, Watermark;
    assert h.numbered + [] == h.numbered;
    match a
    case Submit(msg, clock) =>
      AssignKept(q, h, first, msg.(possDup := false, origSendingTime := None), clock);
    case SubmitRaw(msg, clock) => RawKept(q, h, first, msg, clock);
    case WriteDone(n) =>
      WrittenAsksNothing(q, n);
      if Act(q, a).ok {
        WriteKept(q, h, first, n);
      }
    case WriteFailed => QueuesKept(q, h, first, q.(failed := true));
    case Hand =>
      LedgerLabels(q, h, first);
      if CanPop(q) {
        HandKept(q, h, first);
      }
    case FromSession(event, clock) => EventKept(q, h, first, event, clock);
    case Finish(n) =>
      QueuesKept(q, h, first, Handled(q, n).q);
      NoWriteAsked(Handled(q, n).out);
    case WatermarkDone(nextIn) =>
      QueuesKept(q, h, first, WatermarkWritten(q, nextIn).q);
      NoWriteAsked(WatermarkWritten(q, nextIn).out);
  }

  lemma {:induction false} LedgerLabels(q: SeqView, h: History, first: nat)
    requires Ledger(q, h, first)
    ensures forall i :: 0 <= i < |q.ready| ==> q.ready[i].seqNum.Some?
  {
  }

  lemma {:induction false} WrittenAsksNothing(q: SeqView, n: nat)
    ensures Written(q, n).out == []
  {
  }

  /**
   * Over any run, with writes completing in any order: what has been handed to the session is a
   * prefix of what was numbered, in that order; numbers only go up, from where the session
   * resumed; and every number handed over had its own write reported complete.
   */
  lemma {:induction false} PersistBeforeSend(resume: Resume, policy: InboundPolicy, max: nat, actions: seq<Action>)
    ensures var q := InitialSequencer(resume, policy, max);
            Ledger(AfterActions(q, actions), HistoryOf(q, actions), resume.nextOut)
  {
    if actions != [] {
      hide Act, Record, Ledger;
      var q, before := InitialSequencer(resume, policy, max), actions[..|actions| - 1];
      PersistBeforeSend(resume, policy, max, before);
      ActKept(AfterActions(q, before), HistoryOf(q, before), resume.nextOut, actions[|actions| - 1]);
    }
  }

  /** A crash can leave in the store more than was reported, but never less. */
  ghost predicate MayHold(store: set<nat>, h: History) {
    h.reported <= store
  }

  /**
   * Wherever a run is cut off, resuming past everything the store holds never gives out again a
   * number that reached the session; nor does the next run hand one over.
   */
  lemma {:induction false} NumbersNeverReused(resume: Resume, policy: InboundPolicy, max: nat, actions: seq<Action>,
                                              store: set<nat>, resume': Resume, policy': InboundPolicy, max': nat,
                                              actions': seq<Action>)
    requires MayHold(store, HistoryOf(InitialSequencer(resume, policy, max), actions))
    requires forall n :: n in store ==> n < resume'.nextOut
    ensures var h := HistoryOf(InitialSequencer(resume, policy, max), actions);
            var h' := HistoryOf(InitialSequencer(resume', policy', max'), actions');
            && (forall n, n' :: n in h.handed && n' in h'.numbered ==> n < n')
            && StrictlyIncreasing(h.handed + h'.handed)
  {
    var q, q' := InitialSequencer(resume, policy, max), InitialSequencer(resume', policy', max');
    var h, h' := HistoryOf(q, actions), HistoryOf(q', actions');
    hide HistoryOf, AfterActions;
    PersistBeforeSend(resume, policy, max, actions);
    PersistBeforeSend(resume', policy', max', actions');
    HandedBelow(AfterActions(q, actions), h, resume.nextOut, resume'.nextOut);
    HandedAbove(AfterActions(q', actions'), h', resume'.nextOut);
    forall n, n' | n in h.handed && n' in h'.numbered
      ensures n < n'
    {
      assert n < resume'.nextOut;
    }
  }

  lemma {:induction false} HandedBelow(q: SeqView, h: History, first: nat, bound: nat)
    requires Ledger(q, h, first) && forall n :: n in h.reported ==> n < bound
    ensures forall i :: 0 <= i < |h.handed| ==> h.handed[i] < bound
    ensures StrictlyIncreasing(h.handed)
  {
    assert forall i :: 0 <= i < |h.handed| ==> h.handed[i] == h.numbered[i];
  }

  lemma {:induction false} HandedAbove(q: SeqView, h: History, first: nat)
    requires Ledger(q, h, first)
    ensures forall i :: 0 <= i < |h.handed| ==> first <= h.handed[i]
    ensures forall n :: n in h.numbered ==> first <= n
    ensures StrictlyIncreasing(h.handed)
  {
    assert forall i :: 0 <= i < |h.handed| ==> h.handed[i] == h.numbered[i];
  }

  // ---------------------------------------------------------------------
  // At least once, under the contiguous watermark
  // ---------------------------------------------------------------------

  /** Inbound messages the application was handed and has not yet handled, and the watermarks asked for, in order. */
  datatype InHistory = InHistory(pending: set<nat>, asked: seq<nat>)

  function WatermarksAsked(out: seq<SeqEvent>): seq<nat> {
    if out == [] then []
    else (if out[0].PersistWatermark? then [out[0].nextIn] else []) + WatermarksAsked(out[1..])
  }

  /** The numbers of the messages the application is handed. */
  function HandedOn(out: seq<SeqEvent>): set<nat> {
    if out == [] then {}
    else
      (if out[0].Passed? && out[0].event.MessageReceived? then {out[0].event.seqNum} else {}) + HandedOn(out[1..])
  }

  ghost function RecordIn(h: InHistory, q: SeqView, a: Action): InHistory {
    var pending := h.pending + HandedOn(Act(q, a).out);
    InHistory(if a.Finish? then pending - {a.seqNum} else pending, h.asked + WatermarksAsked(Act(q, a).out))
  }

  lemma {:induction false} NoneHandedOn(out: seq<SeqEvent>)
    requires forall i :: 0 <= i < |out| ==> !(out[i].Passed? && out[i].event.MessageReceived?)
    ensures HandedOn(out) == {}
  {
    if out != [] {
      NoneHandedOn(out[1..]);
    }
  }

  ghost function InHistoryOf(q: SeqView, actions: seq<Action>): InHistory {
    if actions == [] then InHistory({}, [])
    else
      var before := actions[..|actions| - 1];
      RecordIn(InHistoryOf(q, before), AfterActions(q, before), actions[|actions| - 1])
  }

  /** The session delivers in order, and the store reports only the watermark it was asked to write. */
  ghost predicate InOrder(q: SeqView, a: Action) {
    match a
    case FromSession(MessageReceived(n, _), _) => n >= q.sessionNextIn
    case WatermarkDone(nextIn) => q.watermarkInFlight == Some(nextIn)
    case _ => true
  }

  ghost predicate AllInOrder(q: SeqView, actions: seq<Action>) {
    actions != [] ==>
      var before := actions[..|actions| - 1];
      AllInOrder(q, before) && InOrder(AfterActions(q, before), actions[|actions| - 1])
  }

  /** `w` passes no delivered message that is still to be handled. */
  ghost predicate Safe(w: nat, q: SeqView, pending: set<nat>) {
    w <= q.sessionNextIn && forall n :: n in pending ==> w <= n
  }

  ghost predicate InLedger(q: SeqView, h: InHistory) {
    && q.policy == Explicit(Contiguous)
    && q.unhandled == h.pending
    && (forall n :: n in h.pending ==> n < q.sessionNextIn)
    && Safe(q.watermarkPersisted, q, h.pending)
    && (q.watermarkInFlight.Some? ==>
          q.watermarkPersisted < q.watermarkInFlight.value && Safe(q.watermarkInFlight.value, q, h.pending))
    && StrictlyIncreasing(h.asked)
    && (forall i :: 0 <= i < |h.asked| ==>
          h.asked[i] <= q.watermarkPersisted || (i == |h.asked| - 1 && q.watermarkInFlight == Some(h.asked[i])))
  }

  /** Asking for a watermark asks for a safe one, beyond every earlier one. */
  lemma {:induction false} AskKept(q: SeqView, h: InHistory)
    requires InLedger(q, h)
    ensures var r := AskForWatermark(q);
            InLedger(r.q, h.(asked := h.asked + WatermarksAsked(r.out)))
  {
    var r := AskForWatermark(q);
    if r.out != [] {
      assert r.out == [PersistWatermark(Watermark(q))];
      assert r.out[1..] == [];
      assert WatermarksAsked(r.out) == [Watermark(q)];
      assert Safe(Watermark(q), q, h.pending);
    } else {
      assert h.asked + [] == h.asked;
    }
  }

  lemma {:induction false} DeliverKept(q: SeqView, h: InHistory, n: nat)
    requires InLedger(q, h) && n >= q.sessionNextIn
    ensures InLedger(NoteDelivered(q, n), h.(pending := h.pending + {n}))
  {
  }

  /** The watermark machinery is the only thing that asks for watermarks. */
  lemma {:induction false} InboundKept(q: SeqView, h: InHistory, q': SeqView, out: seq<SeqEvent>)
    requires InLedger(q, h)
    requires q'.policy == q.policy && q'.sessionNextIn == q.sessionNextIn && q'.unhandled == q.unhandled
    requires q'.watermarkPersisted == q.watermarkPersisted && q'.watermarkInFlight == q.watermarkInFlight
    requires forall i :: 0 <= i < |out| ==> !out[i].PersistWatermark?
    ensures InLedger(q', h.(asked := h.asked + WatermarksAsked(out)))
  {
    NoWatermarkAsked(out);
    assert h.asked + [] == h.asked;
  }

  lemma {:induction false} NoWatermarkAsked(out: seq<SeqEvent>)
    requires forall i :: 0 <= i < |out| ==> !out[i].PersistWatermark?
    ensures WatermarksAsked(out) == []
  {
    if out != [] {
      NoWatermarkAsked(out[1..]);
    }
  }

  lemma {:induction false} DeliverEventKept(q: SeqView, h: InHistory, n: nat, msg: Message, clock: nat)
    requires InLedger(q, h) && n >= q.sessionNextIn
    ensures var r := OnSessionEvent(q, MessageReceived(n, msg), clock);
            InLedger(r.q, InHistory(h.pending + HandedOn(r.out), h.asked + WatermarksAsked(r.out)))
  {
    AsksOnly(NoteDelivered(q, n));
    hide AskForWatermark, InLedger;
    DeliverKept(q, h, n);
    AskKept(NoteDelivered(q, n), h.(pending := h.pending + {n}));
    var w, told := AskForWatermark(NoteDelivered(q, n)), Passed(MessageReceived(n, msg));
    assert ([told] + w.out)[1..] == w.out;
    assert [] + WatermarksAsked(w.out) == WatermarksAsked(w.out);
    assert HandedOn([told] + w.out) == {n};
  }

  /** Asking for a watermark hands nothing over. */
  lemma {:induction false} AsksOnly(q: SeqView)
    ensures HandedOn(AskForWatermark(q).out) == {}
  {
    NoneHandedOn(AskForWatermark(q).out);
  }

  lemma {:induction false} FinishHandsNothing(q: SeqView, n: nat)
    ensures HandedOn(Handled(q, n).out) == {}
  {
    NoneHandedOn(Handled(q, n).out);
  }

  lemma {:induction false} WatermarkHandsNothing(q: SeqView, w: nat)
    ensures HandedOn(WatermarkWritten(q, w).out) == {}
  {
    NoneHandedOn(WatermarkWritten(q, w).out);
  }

  lemma {:induction false} FinishKept(q: SeqView, h: InHistory, n: nat)
    requires InLedger(q, h)
    ensures InLedger(Handled(q, n).q, InHistory(h.pending - {n}, h.asked + WatermarksAsked(Handled(q, n).out)))
  {
    AskKept(q.(unhandled := q.unhandled - {n}), h.(pending := h.pending - {n}));
  }

  lemma {:induction false} WatermarkKept(q: SeqView, h: InHistory, w: nat)
    requires InLedger(q, h) && q.watermarkInFlight == Some(w)
    ensures InLedger(WatermarkWritten(q, w).q, h.(asked := h.asked + WatermarksAsked(WatermarkWritten(q, w).out)))
  {
    AskKept(q.(watermarkPersisted := Max(q.watermarkPersisted, w), watermarkInFlight := None), h);
  }

  lemma {:induction false} AdvanceKept(q: SeqView, h: InHistory, nextIn: nat, clock: nat)
    requires InLedger(q, h)
    ensures var r := OnSessionEvent(q, InboundAdvanced(nextIn), clock);
            InLedger(r.q, h.(asked := h.asked + WatermarksAsked(r.out)))
  {
    AskKept(NoteAdvanced(q, nextIn), h);
  }

  lemma {:induction false} InActKept(q: SeqView, h: InHistory, a: Action)
    requires InLedger(q, h) && InOrder(q, a)
    ensures InLedger(Act(q, a).q, RecordIn(h, q, a))
  {
    hide InLedger, AskForWatermark, NoteDelivered, NoteAdvanced;
    assert h.pending + {} == h.pending;
    match a {
      case FromSession(MessageReceived(n, msg), clock) => DeliverEventKept(q, h, n, msg, clock);
      case FromSession(InboundAdvanced(nextIn), clock) =>
        AdvanceKept(q, h, nextIn, clock);
        AsksOnly(NoteAdvanced(q, nextIn));
      case Finish(n) =>
        FinishKept(q, h, n);
        FinishHandsNothing(q, n);
      case WatermarkDone(w) =>
        WatermarkKept(q, h, w);
        WatermarkHandsNothing(q, w);
      case _ =>
        InboundKept(q, h, Act(q, a).q, Act(q, a).out);
        NoneHandedOn(Act(q, a).out);
    }
  }

  /**
   * At any moment, the watermark persisted and the one being written, if there is one, pass no
   * delivered message that has not been handled; and each watermark asked for is beyond the last,
   * which has by then been persisted.
   */
  lemma {:induction false} AtLeastOnce(resume: Resume, max: nat, actions: seq<Action>)
    requires AllInOrder(InitialSequencer(resume, Explicit(Contiguous), max), actions)
    ensures var q := InitialSequencer(resume, Explicit(Contiguous), max);
            InLedger(AfterActions(q, actions), InHistoryOf(q, actions))
  {
    if actions != [] {
      hide Act, RecordIn, InLedger, InOrder;
      var q, before := InitialSequencer(resume, Explicit(Contiguous), max), actions[..|actions| - 1];
      AtLeastOnce(resume, max, before);
      InActKept(AfterActions(q, before), InHistoryOf(q, before), actions[|actions| - 1]);
    }
  }
}
