/**
 * What becomes of messages in the sequencer (sequencer.rs:301-399, 442-490), over whole runs: which are
 * taken and under which number, that the store is given what goes out, and that nothing waits longer than
 * for its own write and those before it.
 */
module Handovers {
  import opened FixMessage
  import opened Logs
  import opened Session
  import opened Sequencing
  import opened SequencerRuns

  // ---------------------------------------------------------------------
  // What the store is given goes out
  // ---------------------------------------------------------------------

  function WriteOf(e: SeqEvent): seq<Message> {
    if e.PersistOutbound? then [e.msg] else []
  }

  /** The message an action hands to the session. */
  function HandedBy(q: SeqView, a: Action): seq<Message> {
    if a.Hand? && CanPop(q) then [q.ready[0]] else []
  }

  ghost function Handed(q: SeqView, actions: seq<Action>): seq<Message> {
    if actions == [] then []
    else
      var before := actions[..|actions| - 1];
      Handed(q, before) + HandedBy(AfterActions(q, before), actions[|actions| - 1])
  }

  /** The messages waiting, in order: those that may go out, and those whose writes are outstanding. */
  function Waiting(q: SeqView): seq<Message> {
    q.ready + Messages(q.inFlight)
  }

  /** One action: what waited and what is to be written now has been handed over or waits. */
  ghost predicate Keeps(q: SeqView, a: Action) {
    Waiting(q) + Picked(Act(q, a).out, WriteOf) == HandedBy(q, a) + Waiting(Act(q, a).q)
  }

  lemma {:induction false} MessagesAppend(a: seq<InFlight>, b: seq<InFlight>)
    ensures Messages(a + b) == Messages(a) + Messages(b)
  {
    hide Messages;
  }

  lemma {:induction false} WriteKeeps(q: SeqView, n: nat, msg: Message)
    ensures var r := RequestWrite(q, n, msg);
            Picked(r.out, WriteOf) == [msg] && Waiting(r.q) == Waiting(q) + [msg]
  {
    hide Messages, Picked;
    var f := InFlight(n, msg, false);
    PickedOne([PersistOutbound(n, msg)], WriteOf);
    MessagesAppend(q.inFlight, [f]);
    assert Messages([f]) == [msg];
    assert q.ready + (Messages(q.inFlight) + [msg]) == Waiting(q) + [msg];
  }

  /** Completing a write moves messages up, and changes none. */
  lemma {:induction false} WrittenKeeps(q: SeqView, n: nat)
    ensures Waiting(Written(q, n).q) == Waiting(q) && Written(q, n).out == []
  {
    hide Messages, Find, DoneCount;
    var i := Find(q.inFlight, n);
    if Written(q, n).ok {
      var marked := q.inFlight[i := q.inFlight[i].(persisted := true)];
      MarkKeeps(q.inFlight, i);
      MoveKeeps(q.ready, marked, DoneCount(marked));
    }
  }

  lemma {:induction false} MarkKeeps(inFlight: seq<InFlight>, i: nat)
    requires i < |inFlight|
    ensures Messages(inFlight[i := inFlight[i].(persisted := true)]) == Messages(inFlight)
  {
    hide Messages;
  }

  lemma {:induction false} MoveKeeps(ready: seq<Message>, inFlight: seq<InFlight>, k: nat)
    requires k <= |inFlight|
    ensures ready + Messages(inFlight[..k]) + Messages(inFlight[k..]) == ready + Messages(inFlight)
  {
    hide Messages;
    MessagesAppend(inFlight[..k], inFlight[k..]);
    assert inFlight[..k] + inFlight[k..] == inFlight;
    assert ready + Messages(inFlight[..k]) + Messages(inFlight[k..]) == ready + (Messages(inFlight[..k]) + Messages(inFlight[k..]));
  }

  lemma {:induction false} ActKeeps(q: SeqView, a: Action)
    ensures Keeps(q, a)
  {
    hide Picked, Waiting, Written, AskForWatermark, RequestWrite;
    PickedOne<SeqEvent, Message>([], WriteOf);
    match a {
      case Submit(msg, clock) => AssignKeeps(q, msg.(possDup := false, origSendingTime := None), clock);
      case SubmitRaw(msg, clock) => RawKeeps(q, msg, clock);
      case WriteDone(n) => WrittenKeeps(q, n);
      case WriteFailed => SameWaiting(q, q.(failed := true));
      case Hand => HandKeeps(q);
      case FromSession(AdminSendRequired(msg), clock) => AssignKeeps(q, msg, clock);
      case _ => QuietKeeps(q, a);
    }
  }

  lemma {:induction false} SameWaiting(q: SeqView, q': SeqView)
    requires q'.ready == q.ready && q'.inFlight == q.inFlight
    ensures Waiting(q') == Waiting(q)
  {
  }

  lemma {:induction false} AssignKeeps(q: SeqView, msg: Message, clock: nat)
    ensures Waiting(q) + Picked(Assign(q, msg, clock).out, WriteOf) == Waiting(Assign(q, msg, clock).q)
  {
    hide Picked, Waiting, RequestWrite;
    PickedOne<SeqEvent, Message>([], WriteOf);
    if !q.failed {
      var q1 := q.(nextOut := q.nextOut + 1);
      WriteKeeps(q1, q.nextOut, Stamp(msg.(seqNum := Some(q.nextOut)), clock));
      SameWaiting(q, q1);
    }
  }

  lemma {:induction false} RawKeeps(q: SeqView, msg: Message, clock: nat)
    ensures Waiting(q) + Picked(SendRaw(q, msg, clock).out, WriteOf) == Waiting(SendRaw(q, msg, clock).q)
  {
    hide Picked, Waiting, RequestWrite;
    PickedOne<SeqEvent, Message>([], WriteOf);
    if !q.failed && msg.seqNum.Some? && msg.seqNum.value >= q.nextOut {
      var q1 := q.(nextOut := msg.seqNum.value + 1);
      WriteKeeps(q1, msg.seqNum.value, Stamp(msg, clock));
      SameWaiting(q, q1);
    }
  }

  lemma {:induction false} HandKeeps(q: SeqView)
    ensures Waiting(q) == HandedBy(q, Hand) + Waiting(Act(q, Hand).q)
  {
    hide Messages;
  }

  lemma {:induction false} QuietKeeps(q: SeqView, a: Action)
    requires a.Finish? || a.WatermarkDone? || (a.FromSession? && !a.event.AdminSendRequired?)
    ensures Keeps(q, a)
  {
    hide Picked, Waiting, Watermark;
    NonePicked(Act(q, a).out, WriteOf);
    SameWaiting(q, Act(q, a).q);
  }

  /**
   * Over any run: the messages given to the store are, in order and field by field, those handed to the
   * session, then those that may be, then those whose writes are outstanding.
   */
  lemma {:induction false} HandedAsStored(resume: Resume, policy: InboundPolicy, max: nat, actions: seq<Action>)
    ensures var q := InitialSequencer(resume, policy, max);
            Picked(ToldBy(q, actions), WriteOf) == Handed(q, actions) + Waiting(AfterActions(q, actions))
  {
    var q := InitialSequencer(resume, policy, max);
    if actions == [] {
      PickedOne<SeqEvent, Message>([], WriteOf);
    } else {
      hide Act, HandedBy, Waiting, Picked;
      var before, last := actions[..|actions| - 1], actions[|actions| - 1];
      var mid := AfterActions(q, before);
      HandedAsStored(resume, policy, max, before);
      ActKeeps(mid, last);
      PickedAppend(ToldBy(q, before), Act(mid, last).out, WriteOf);
      Rejoin(Handed(q, before), Waiting(mid), Picked(Act(mid, last).out, WriteOf), HandedBy(mid, last),
             Waiting(Act(mid, last).q));
    }
  }

  lemma {:induction false} Rejoin(handed: seq<Message>, waiting: seq<Message>, more: seq<Message>,
                                  handed': seq<Message>, waiting': seq<Message>)
    requires waiting + more == handed' + waiting'
    ensures handed + waiting + more == handed + handed' + waiting'
  {
    assert handed + waiting + more == handed + (waiting + more);
  }

  // ---------------------------------------------------------------------
  // What is taken, and under which number
  // ---------------------------------------------------------------------

  /** Numbered, and with a time if it had none. */
  function Numbered(msg: Message, n: nat, clock: nat): Message {
    msg.(seqNum := Some(n), sendingTime := if msg.sendingTime.Some? then msg.sendingTime else Some(clock))
  }

  /**
   * What an action gives to the store, unless a write has failed: a message to be sent, without the marks of
   * a copy, if there is room; one to be sent as it is, if its number is not behind; and what the session
   * asks for.
   */
  function Given(failed: bool, full: bool, next: nat, a: Action): seq<Message> {
    if failed then []
    else
      match a
      case Submit(msg, clock) => if full then [] else [Numbered(msg, next, clock).(possDup := false, origSendingTime := None)]
      case SubmitRaw(msg, clock) =>
        if msg.seqNum.Some? && msg.seqNum.value >= next then [Numbered(msg, msg.seqNum.value, clock)] else []
      case FromSession(AdminSendRequired(msg), clock) => [Numbered(msg, next, clock)]
      case _ => []
  }

  /** The next number: after the last one given out. */
  function Next(resume: Resume, numbered: seq<nat>): nat {
    if numbered == [] then resume.nextOut else numbered[|numbered| - 1] + 1
  }

  /** How many of these numbers come before the first whose write is not complete. */
  function Complete(numbered: seq<nat>, reported: set<nat>): (k: nat)
    ensures k <= |numbered|
    ensures forall i :: 0 <= i < k ==> numbered[i] in reported
    ensures k < |numbered| ==> numbered[k] !in reported
  {
    if numbered == [] || numbered[0] !in reported then 0 else 1 + Complete(numbered[1..], reported)
  }

  predicate HasFailed(actions: seq<Action>) {
    WriteFailed in actions
  }

  /** No room: as many as are allowed have been numbered since the last whose write, with those before it, is complete. */
  predicate Full(h: History, max: nat) {
    |h.numbered| - Complete(h.numbered, h.reported) >= max
  }

  /** The sequencer's own fields say what its history says. */
  ghost predicate Knows(q: SeqView, resume: Resume, max: nat, h: History, failed: bool) {
    && q.failed == failed && q.maxInFlight == max
    && q.nextOut == Next(resume, h.numbered)
    && (forall n :: n in h.reported ==> n < q.nextOut)
    && MarkedAsReported(q.inFlight, h.reported)
    && (q.inFlight != [] ==> !q.inFlight[0].persisted)
  }

  /** A number is in the run that is complete exactly when it has left the writes in flight. */
  lemma {:induction false} CompleteIs(numbered: seq<nat>, reported: set<nat>, k: nat)
    requires k <= |numbered| && (forall i :: 0 <= i < k ==> numbered[i] in reported)
    requires k < |numbered| ==> numbered[k] !in reported
    ensures Complete(numbered, reported) == k
  {
    hide Complete;
    var c := Complete(numbered, reported);
    assert !(c < k) && !(k < c);
  }

  /** Everything whose own write and those before it are complete has been moved up, and nothing else. */
  lemma {:induction false} MovedUp(q: SeqView, resume: Resume, max: nat, h: History, failed: bool, first: nat)
    requires Ledger(q, h, first) && Knows(q, resume, max, h, failed)
    ensures Complete(h.numbered, h.reported) == |h.handed| + |q.ready|
    ensures |h.numbered| == |h.handed| + |q.ready| + |q.inFlight|
  {
    var k := |h.handed| + |q.ready|;
    assert forall i :: 0 <= i < |h.handed| ==> h.numbered[i] == h.handed[i];
    assert forall i :: |h.handed| <= i < k ==> h.numbered[i] == q.ready[i - |h.handed|].seqNum.value;
    assert q.inFlight != [] ==> h.numbered[k] == q.inFlight[0].seqNum;
    hide Complete;
    CompleteIs(h.numbered, h.reported, k);
  }

  lemma {:induction false} NewWriteKnown(q: SeqView, resume: Resume, max: nat, h: History, q': SeqView, n: nat, msg: Message)
    requires Knows(q, resume, max, h, false) && n >= q.nextOut
    requires q' == q.(nextOut := n + 1, inFlight := q.inFlight + [InFlight(n, msg, false)])
    ensures Knows(q', resume, max, h.(numbered := h.numbered + [n]), false)
  {
  }

  lemma {:induction false} WriteDoneKnown(q: SeqView, resume: Resume, max: nat, h: History, first: nat, n: nat)
    requires Ledger(q, h, first) && Knows(q, resume, max, h, false) && Written(q, n).ok
    ensures Knows(Written(q, n).q, resume, max, h.(reported := h.reported + {n}), false)
  {
    var i := Find(q.inFlight, n);
    FlightDistinct(q, h, first);
    FlightBelow(q, h, first, i);
    hide Ledger, Find, DoneCount, Messages;
    var marked := q.inFlight[i := q.inFlight[i].(persisted := true)];
    MarkKnown(q.inFlight, h.reported, i);
    DrainKnown(marked, h.reported + {n});
  }

  /** What is marked is what is reported. */
  predicate MarkedAsReported(inFlight: seq<InFlight>, reported: set<nat>) {
    forall i :: 0 <= i < |inFlight| ==> (inFlight[i].persisted <==> inFlight[i].seqNum in reported)
  }

  lemma {:induction false} MarkKnown(inFlight: seq<InFlight>, reported: set<nat>, i: nat)
    requires MarkedAsReported(inFlight, reported) && i < |inFlight|
    requires forall j, k :: 0 <= j < k < |inFlight| ==> inFlight[j].seqNum != inFlight[k].seqNum
    ensures MarkedAsReported(inFlight[i := inFlight[i].(persisted := true)], reported + {inFlight[i].seqNum})
  {
  }

  lemma {:induction false} DrainKnown(inFlight: seq<InFlight>, reported: set<nat>)
    requires MarkedAsReported(inFlight, reported)
    ensures var rest := inFlight[DoneCount(inFlight)..];
            MarkedAsReported(rest, reported) && (rest != [] ==> !rest[0].persisted)
  {
    hide DoneCount;
  }

  lemma {:induction false} FlightDistinct(q: SeqView, h: History, first: nat)
    requires Ledger(q, h, first)
    ensures forall i, j :: 0 <= i < j < |q.inFlight| ==> q.inFlight[i].seqNum != q.inFlight[j].seqNum
  {
    var k := |h.handed| + |q.ready|;
    assert forall i :: 0 <= i < |q.inFlight| ==> h.numbered[k + i] == q.inFlight[i].seqNum;
  }

  lemma {:induction false} FlightBelow(q: SeqView, h: History, first: nat, i: nat)
    requires Ledger(q, h, first) && i < |q.inFlight|
    ensures q.inFlight[i].seqNum < q.nextOut
  {
    var k := |h.handed| + |q.ready|;
    assert h.numbered[k + i] == q.inFlight[i].seqNum;
  }

  /** One action: what it gives to the store, and that the fields still say what the history says. */
  ghost predicate Follows(q: SeqView, resume: Resume, max: nat, h: History, failed: bool, a: Action) {
    && Picked(Act(q, a).out, WriteOf) == Given(failed, Full(h, max), Next(resume, h.numbered), a)
    && Knows(Act(q, a).q, resume, max, Record(h, q, a), failed || a.WriteFailed?)
    && (a.Submit? || a.SubmitRaw? ==> (Act(q, a).ok <==> Picked(Act(q, a).out, WriteOf) != []))
  }

  lemma {:induction false} AssignFollows(q: SeqView, resume: Resume, max: nat, h: History, failed: bool, msg: Message, clock: nat)
    requires Knows(q, resume, max, h, failed)
    ensures var r := Assign(q, msg, clock);
            && Picked(r.out, WriteOf) == (if failed then [] else [Numbered(msg, Next(resume, h.numbered), clock)])
            && Knows(r.q, resume, max, h.(numbered := h.numbered + WriteAsked(r.out)), failed)
  {
    hide Picked;
    var r := Assign(q, msg, clock);
    PickedOne(r.out, WriteOf);
    assert h.numbered + [] == h.numbered;
    if !failed {
      assert WriteAsked(r.out) == [q.nextOut];
      NewWriteKnown(q, resume, max, h, r.q, q.nextOut, Stamp(msg.(seqNum := Some(q.nextOut)), clock));
    }
    hide Knows;
  }

  lemma {:induction false} RawFollows(q: SeqView, resume: Resume, max: nat, h: History, failed: bool, msg: Message, clock: nat)
    requires Knows(q, resume, max, h, failed)
    ensures var r := SendRaw(q, msg, clock);
            && Picked(r.out, WriteOf) == Given(failed, true, Next(resume, h.numbered), SubmitRaw(msg, clock))
            && Knows(r.q, resume, max, h.(numbered := h.numbered + WriteAsked(r.out)), failed)
            && (r.ok <==> Picked(r.out, WriteOf) != [])
  {
    hide Picked;
    var r := SendRaw(q, msg, clock);
    PickedOne(r.out, WriteOf);
    assert h.numbered + [] == h.numbered;
    if r.ok {
      assert WriteAsked(r.out) == [msg.seqNum.value];
      NewWriteKnown(q, resume, max, h, r.q, msg.seqNum.value, Stamp(msg, clock));
    }
    hide Knows;
  }

  lemma {:induction false} OthersKnown(q: SeqView, resume: Resume, max: nat, h: History, failed: bool, q': SeqView)
    requires Knows(q, resume, max, h, failed)
    requires q'.nextOut == q.nextOut && q'.inFlight == q.inFlight && q'.maxInFlight == q.maxInFlight && q'.failed == q.failed
    ensures Knows(q', resume, max, h, failed)
  {
  }

  lemma {:induction false} ActFollows(q: SeqView, resume: Resume, max: nat, h: History, failed: bool, first: nat, a: Action)
    requires Ledger(q, h, first) && Knows(q, resume, max, h, failed)
    ensures Follows(q, resume, max, h, failed, a)
  {
    hide Picked, Ledger, Knows, Written, Assign, SendRaw, OnSessionEvent, Watermark, Complete;
    PickedOne<SeqEvent, Message>([], WriteOf);
    assert h.numbered + [] == h.numbered && WriteAsked([]) == [];
    match a {
      case Submit(msg, clock) =>
        RoomKnown(q, resume, max, h, failed, first);
        AssignFollows(q, resume, max, h, failed, msg.(possDup := false, origSendingTime := None), clock);
      case SubmitRaw(msg, clock) => RawFollows(q, resume, max, h, failed, msg, clock);
      case WriteDone(n) => WriteFollows(q, resume, max, h, failed, first, n);
      case WriteFailed => FailureKnown(q, resume, max, h, failed);
      case Hand => HandFollows(q, resume, max, h, failed, first);
      case FromSession(event, clock) => EventFollows(q, resume, max, h, failed, event, clock);
      case Finish(n) => QuietFollows(q, resume, max, h, failed, a);
      case WatermarkDone(n) => QuietFollows(q, resume, max, h, failed, a);
    }
  }

  lemma {:induction false} RoomKnown(q: SeqView, resume: Resume, max: nat, h: History, failed: bool, first: nat)
    requires Ledger(q, h, first) && Knows(q, resume, max, h, failed)
    ensures Full(h, max) <==> |q.inFlight| >= q.maxInFlight
    ensures q.failed == failed
  {
    hide Ledger, Complete;
    MovedUp(q, resume, max, h, failed, first);
  }

  lemma {:induction false} WriteFollows(q: SeqView, resume: Resume, max: nat, h: History, failed: bool, first: nat, n: nat)
    requires Ledger(q, h, first) && Knows(q, resume, max, h, failed)
    ensures Follows(q, resume, max, h, failed, WriteDone(n))
  {
    hide Picked, Ledger;
    PickedOne<SeqEvent, Message>([], WriteOf);
    assert h.numbered + [] == h.numbered && WriteAsked([]) == [];
    WrittenAsksNothing(q, n);
    if Written(q, n).ok {
      WriteDoneKnown(q, resume, max, h, first, n);
    }
    hide Knows, Find, DoneCount, Messages;
  }

  lemma {:induction false} FailureKnown(q: SeqView, resume: Resume, max: nat, h: History, failed: bool)
    requires Knows(q, resume, max, h, failed)
    ensures Knows(q.(failed := true), resume, max, h, true)
  {
  }

  lemma {:induction false} HandFollows(q: SeqView, resume: Resume, max: nat, h: History, failed: bool, first: nat)
    requires Ledger(q, h, first) && Knows(q, resume, max, h, failed)
    ensures Follows(q, resume, max, h, failed, Hand)
  {
    hide Picked;
    PickedOne<SeqEvent, Message>([], WriteOf);
    LedgerLabels(q, h, first);
    assert h.numbered + [] == h.numbered && WriteAsked([]) == [];
    hide Ledger;
    OthersKnown(q, resume, max, h, failed, Act(q, Hand).q);
    HandedNumbers(Act(q, Hand).q, resume, max, h, failed, Record(h, q, Hand));
    hide Knows;
  }

  lemma {:induction false} HandedNumbers(q: SeqView, resume: Resume, max: nat, h: History, failed: bool, h': History)
    requires Knows(q, resume, max, h, failed) && h' == h.(handed := h'.handed)
    ensures Knows(q, resume, max, h', failed)
  {
  }

  lemma {:induction false} EventFollows(q: SeqView, resume: Resume, max: nat, h: History, failed: bool, event: Event, clock: nat)
    requires Knows(q, resume, max, h, failed)
    ensures Follows(q, resume, max, h, failed, FromSession(event, clock))
  {
    if event.AdminSendRequired? {
      hide Picked, Knows, Assign, WriteAsked;
      AssignFollows(q, resume, max, h, failed, event.msg, clock);
    } else {
      QuietFollows(q, resume, max, h, failed, FromSession(event, clock));
    }
  }

  lemma {:induction false} QuietFollows(q: SeqView, resume: Resume, max: nat, h: History, failed: bool, a: Action)
    requires Knows(q, resume, max, h, failed)
    requires a.Finish? || a.WatermarkDone? || (a.FromSession? && !a.event.AdminSendRequired?)
    ensures Follows(q, resume, max, h, failed, a)
  {
    hide Picked, Watermark, Knows;
    var r := Act(q, a);
    NonePicked(r.out, WriteOf);
    NoWriteAsked(r.out);
    assert h.numbered + [] == h.numbered;
    OthersKnown(q, resume, max, h, failed, r.q);
  }

  /**
   * Over any run the sequencer's fields say what its history says: the next number follows the last one
   * given out, and a message still waits for the store exactly when its own write, or one before it, is not
   * complete.
   */
  lemma {:induction false} HistoryKnown(resume: Resume, policy: InboundPolicy, max: nat, actions: seq<Action>)
    ensures var q := InitialSequencer(resume, policy, max);
            var h, a := HistoryOf(q, actions), AfterActions(q, actions);
            && Knows(a, resume, max, h, HasFailed(actions))
            && Complete(h.numbered, h.reported) == |h.handed| + |a.ready|
  {
    hide Act, Record, Ledger, Complete;
    var q := InitialSequencer(resume, policy, max);
    PersistBeforeSend(resume, policy, max, actions);
    if actions != [] {
      hide Knows;
      var before, last := actions[..|actions| - 1], actions[|actions| - 1];
      HistoryKnown(resume, policy, max, before);
      PersistBeforeSend(resume, policy, max, before);
      ActFollows(AfterActions(q, before), resume, max, HistoryOf(q, before), HasFailed(before), resume.nextOut, last);
      assert actions == before + [last];
    }
    MovedUp(AfterActions(q, actions), resume, max, HistoryOf(q, actions), HasFailed(actions), resume.nextOut);
  }

  /**
   * Whatever the sequencer has been through, the next action gives the store exactly the message it is meant
   * to, under the next number; a message to be sent is refused if and only if it gives none.
   */
  lemma {:induction false} StoredAsGiven(resume: Resume, policy: InboundPolicy, max: nat, actions: seq<Action>, a: Action)
    ensures var start := InitialSequencer(resume, policy, max);
            var q, h := AfterActions(start, actions), HistoryOf(start, actions);
            && Picked(Act(q, a).out, WriteOf) == Given(HasFailed(actions), Full(h, max), Next(resume, h.numbered), a)
            && (a.Submit? || a.SubmitRaw? ==> (Act(q, a).ok <==> Picked(Act(q, a).out, WriteOf) != []))
  {
    hide Act, Record, Ledger, Complete, Knows, Picked, Given, Full, Next, AfterActions, HistoryOf;
    var q := InitialSequencer(resume, policy, max);
    HistoryKnown(resume, policy, max, actions);
    PersistBeforeSend(resume, policy, max, actions);
    ActFollows(AfterActions(q, actions), resume, max, HistoryOf(q, actions), HasFailed(actions), resume.nextOut, a);
  }

  // ---------------------------------------------------------------------
  // When a message is handed over
  // ---------------------------------------------------------------------

  /** The session has said it is logged on. */
  predicate ToldLoggedOn(actions: seq<Action>) {
    exists i :: 0 <= i < |actions| && actions[i].FromSession? && actions[i].event.LoggedOn?
  }

  lemma {:induction false} LoggedOnKnown(resume: Resume, policy: InboundPolicy, max: nat, actions: seq<Action>)
    ensures AfterActions(InitialSequencer(resume, policy, max), actions).loggedOn == ToldLoggedOn(actions)
  {
    if actions != [] {
      hide Act;
      var before, last := actions[..|actions| - 1], actions[|actions| - 1];
      LoggedOnKnown(resume, policy, max, before);
      ActLogsOn(AfterActions(InitialSequencer(resume, policy, max), before), last);
      assert actions == before + [last];
      assert forall i :: 0 <= i < |before| ==> before[i] == actions[i];
    }
  }

  lemma {:induction false} ActLogsOn(q: SeqView, a: Action)
    ensures Act(q, a).q.loggedOn == (q.loggedOn || (a.FromSession? && a.event.LoggedOn?))
  {
    hide Watermark;
  }

  /** What is first in line is handed over exactly when the session is logged on or it is a Logon. */
  lemma {:induction false} HandedWhen(resume: Resume, policy: InboundPolicy, max: nat, actions: seq<Action>)
    ensures var q := AfterActions(InitialSequencer(resume, policy, max), actions);
            HandedBy(q, Hand)
            == if q.ready != [] && (ToldLoggedOn(actions) || q.ready[0].msgType.Logon?) then [q.ready[0]] else []
  {
    hide AfterActions, ToldLoggedOn;
    LoggedOnKnown(resume, policy, max, actions);
  }

  /** A release that ends of itself leaves nothing that may be handed over. */
  lemma {:induction false} ReleasedAll(q: SeqView, s: SessionView, now: nat, clock: nat)
    requires s.WellFormed() && Released(q, s, now, clock).outcome == Continue
    ensures var q' := Released(q, s, now, clock).q;
            q'.ready == [] || (!q'.loggedOn && !q'.ready[0].msgType.Logon?)
    decreases |q.ready|
  {
    hide HandOver;
    if CanPop(q) {
      var one := HandOver(q, s, now, clock);
      ReleasedAll(one.q, one.s, now, clock);
    }
  }
}
