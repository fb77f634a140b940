/**
 * What the application is told of the messages that come in, over whole runs
 * (session/state.rs:252-269, 675-876): which it is handed, and which ranges it is asked to replay.
 */
module Deliveries {
  import opened FixMessage
  import opened Logs
  import opened Replaying
  import opened Session
  import opened SessionRuns
  import opened Inbound

  // ---------------------------------------------------------------------
  // What comes of a message, in parts
  // ---------------------------------------------------------------------

  /** A message that cannot be placed: no number, or a reset that is no gap fill. */
  predicate Unplaceable(msg: Message) {
    msg.seqNum.None? || (msg.msgType.SequenceReset? && (msg.gapFillFlag != Some(true) || msg.newSeqNo.None?))
  }

  lemma {:induction false} UnplaceableStands(msg: Message)
    ensures StandsFor(msg).Some? <==> !Unplaceable(msg) && (msg.msgType.SequenceReset? ==> msg.newSeqNo.value > msg.seqNum.value)
    ensures StandsFor(msg).Some? ==> StandsFor(msg).value.First() == msg.seqNum.value
  {
  }

  /** What goes the other way: the wire, and requests to send, unless they answer a Test Request. */
  predicate Outward(o: Output) {
    match o
    case Transmit(_, _) => true
    case Raise(AdminSendRequired(msg)) => !msg.msgType.Heartbeat? || msg.testReqId.None?
    case Raise(RawMessageReceived(_)) => true
    case Raise(RawMessageSent(_)) => true
    case Raise(LoggedOn) => true
    case Raise(Disconnected) => true
    case _ => false
  }

  /** Interested only in what comes in. */
  ghost predicate Inward<T>(f: Output -> seq<T>) {
    forall o: Output :: Outward(o) ==> f(o) == []
  }

  predicate AllOutward(log: seq<Output>) {
    forall i :: 0 <= i < |log| ==> Outward(log[i])
  }

  lemma {:induction false} OutwardBoth(a: seq<Output>, b: seq<Output>)
    requires AllOutward(a) && AllOutward(b)
    ensures AllOutward(a + b)
  {
    hide Outward;
  }

  lemma {:induction false} OutwardUnpicked<T>(log: seq<Output>, f: Output -> seq<T>)
    requires Inward(f) && AllOutward(log)
    ensures Picked(log, f) == []
  {
    hide Outward;
    NonePicked(log, f);
  }

  /** Outside the sequence only a request for a resend is acted on. */
  lemma {:induction false} OutsidePicked<T>(s: SessionView, msg: Message, now: nat, f: Output -> seq<T>)
    requires Inward(f) && (StandsFor(msg).None? || StandsFor(msg).value.First() != s.nextIn)
    ensures Picked(HandleSessionMessage(s, msg, now).out, f)
            == if msg.seqNum.Some? && msg.seqNum.value > s.nextIn && msg.msgType.ResendRequest?
               then Picked(OpenReplay(s, msg).out, f) else []
  {
    UnplaceableStands(msg);
    hide Picked, StandsFor, Inward;
    if Unplaceable(msg) || msg.seqNum.value == s.nextIn {
      PickedOne([], f);
    } else if msg.seqNum.value < s.nextIn {
      OutwardUnpicked(RequestLogout(s, TOO_LOW, now).out, f);
    } else {
      var ask := AskForGap(s, msg);
      OutwardUnpicked(ask.out, f);
      if msg.msgType.ResendRequest? {
        var open := OpenReplay(ask.s, msg);
        assert open.out == OpenReplay(s, msg).out;
        hide OpenReplay, AskForGap;
        PickedAppend(ask.out, open.out, f);
        assert [] + Picked(open.out, f) == Picked(open.out, f);
      }
    }
  }

  /** In sequence: what the message itself leads to. */
  lemma {:induction false} InsidePicked<T>(s: SessionView, msg: Message, now: nat, f: Output -> seq<T>)
    requires Inward(f) && StandsFor(msg).Some? && StandsFor(msg).value.First() == s.nextIn
    ensures Picked(HandleSessionMessage(s, msg, now).out, f)
            == Picked(DispatchMessage(Advanced(s, msg), msg, true, now).out, f)
  {
    UnplaceableStands(msg);
    hide Picked, StandsFor, DispatchMessage, Inward;
    var d := DispatchMessage(Advanced(s, msg), msg, true, now);
    var logout := RequestLogout(d.s, LOGOUT_RECEIVED, now);
    OutwardUnpicked(logout.out, f);
    PickedAppend(d.out, logout.out, f);
    assert Picked(d.out, f) + [] == Picked(d.out, f);
  }

  /** A message heard, with what it leads to. */
  function HeardPicked<T>(s: SessionView, msg: Message, now: nat, f: Output -> seq<T>): seq<T> {
    if StandsFor(msg).Some? && StandsFor(msg).value.First() == s.nextIn then
      if Delivered(msg) then f(Raise(MessageReceived(msg.seqNum.value, msg)))
      else
        var p := Prompted(Advanced(s, msg), msg, now);
        Picked(p.out, f) + if p.outcome == Fail then [] else f(Raise(InboundAdvanced(Advanced(s, msg).nextIn)))
    else if msg.seqNum.Some? && msg.seqNum.value > s.nextIn && msg.msgType.ResendRequest? then
      Picked(OpenReplay(s, msg).out, f)
    else []
  }

  lemma {:induction false} HandlePicked<T>(s: SessionView, msg: Message, now: nat, f: Output -> seq<T>)
    requires Inward(f)
    ensures Picked(HandleSessionMessage(s, msg, now).out, f) == HeardPicked(s, msg, now, f)
  {
    UnplaceableStands(msg);
    hide Picked, StandsFor, Inward, Prompted, HandleSessionMessage, OpenReplay, Advanced;
    if StandsFor(msg).Some? && StandsFor(msg).value.First() == s.nextIn {
      InsidePicked(s, msg, now, f);
      var s1 := Advanced(s, msg);
      var p, advanced := Prompted(s1, msg, now), [Raise(InboundAdvanced(s1.nextIn))];
      PickedOne([Raise(MessageReceived(msg.seqNum.value, msg))], f);
      PickedOne(advanced, f);
      PickedAppend(p.out, advanced, f);
      assert Picked(p.out, f) + [] == Picked(p.out, f);
    } else {
      OutsidePicked(s, msg, now, f);
    }
  }

  /** Everything but a message heard is of no interest. */
  lemma {:induction false} StepPicked<T>(s: SessionView, input: Input, now: nat, f: Output -> seq<T>)
    requires s.WellFormed() && Inward(f)
    requires input.Receive? || input.PeerLogon? ==> now == input.now
    ensures Picked(StepOf(s, input).out, f)
            == if Heard(s, input).Some? then HeardPicked(s, Heard(s, input).value, now, f) else []
  {
    hide Picked, Inward, HeardPicked, HandleSessionMessage, OnCommand, OnTimeout, StartTail;
    match input
    case Receive(msg, t) =>
      var s1 := s.(timers := s.timers.(nextIn := t + s.interval, missed := 0));
      var received := [Raise(RawMessageReceived(msg))];
      OutwardUnpicked(received, f);
      if s.closing.None? {
        var h := HandleSessionMessage(s1, msg, t);
        HandlePicked(s1, msg, t, f);
        PickedAppend(received, h.out, f);
        assert [] + Picked(h.out, f) == Picked(h.out, f);
        TimersUnseen(s, s1, msg, t, f);
      }
    case PeerLogon(logon, t) =>
      var h := HandleSessionMessage(s, logon, t);
      HandlePicked(s, logon, t, f);
      TailUnpicked(h.s, f);
      PickedAppend(h.out, StartTail(h.s).out, f);
      assert Picked(h.out, f) + [] == Picked(h.out, f);
    case Apply(cmd, t) => CommandUnpicked(s, cmd, t, f);
    case Tick(t) => TickUnpicked(s, t, f);
    case AskLogon => OutwardUnpicked(RequestLogon(s).out, f);
    case PeerClosed => OutwardUnpicked([Raise(Disconnected)], f);
  }

  lemma {:induction false} TimersUnseen<T>(s: SessionView, s1: SessionView, msg: Message, now: nat, f: Output -> seq<T>)
    requires s1 == s.(timers := s1.timers)
    ensures HeardPicked(s1, msg, now, f) == HeardPicked(s, msg, now, f)
  {
    hide Picked, StandsFor, Prompted;
    if msg.seqNum.Some? && (msg.msgType.SequenceReset? ==> msg.newSeqNo.Some?) {
      PromptUntimed(Advanced(s, msg), Advanced(s1, msg), msg, now);
    }
    UnplaceableStands(msg);
  }

  lemma {:induction false} PromptUntimed(s: SessionView, s1: SessionView, msg: Message, now: nat)
    requires s1 == s.(timers := s1.timers)
    ensures Prompted(s1, msg, now).out == Prompted(s, msg, now).out
    ensures Prompted(s1, msg, now).outcome == Prompted(s, msg, now).outcome
  {
  }

  lemma {:induction false} TailUnpicked<T>(s: SessionView, f: Output -> seq<T>)
    requires Inward(f)
    ensures Picked(StartTail(s).out, f) == []
  {
    hide Picked, Inward;
    OutwardUnpicked(StartTail(s).out, f);
  }

  lemma {:induction false} TickUnpicked<T>(s: SessionView, now: nat, f: Output -> seq<T>)
    requires Inward(f)
    ensures Picked(OnTimeout(s, now).out, f) == []
  {
    hide Picked, Inward;
    var beat := HeartbeatDue(s, now);
    var miss := HeartbeatMissed(beat.s, now);
    OutwardUnpicked(beat.out, f);
    OutwardUnpicked(miss.out, f);
    PickedAppend(beat.out, miss.out, f);
    PickedOne([], f);
  }

  lemma {:induction false} CommandUnpicked<T>(s: SessionView, cmd: Command, now: nat, f: Output -> seq<T>)
    requires s.WellFormed() && Inward(f)
    ensures Picked(OnCommand(s, cmd, now).out, f) == []
  {
    hide Picked, Inward, Outward;
    CommandOutward(s, cmd, now);
    OutwardUnpicked(OnCommand(s, cmd, now).out, f);
  }

  lemma {:induction false} CommandOutward(s: SessionView, cmd: Command, now: nat)
    requires s.WellFormed()
    ensures AllOutward(OnCommand(s, cmd, now).out)
  {
    hide CompleteReplay, SendMessage, ReplayMessage;
    var s1 := s.(timers := s.timers.(nextOut := now + s.interval));
    match cmd
    case Send(msg) => SendOutward(s, msg, now);
    case Replay(msg) => ReplayOutward(s1, msg);
    case ReplayComplete => CompleteOutward(s1);
    case Disconnect =>
  }

  lemma {:induction false} SendOutward(s: SessionView, msg: Message, now: nat)
    ensures AllOutward(SendMessage(s, msg, now).out)
  {
  }

  lemma {:induction false} ReplayOutward(s: SessionView, msg: Message)
    requires s.WellFormed()
    ensures AllOutward(ReplayMessage(s, msg).out)
  {
  }

  lemma {:induction false} QueueOutward(s: SessionView, queue: seq<Message>)
    requires forall i :: 0 <= i < |queue| ==> queue[i].seqNum.Some?
    ensures AllOutward(DispatchQueue(s, queue).out)
    decreases |queue|
  {
    if queue != [] {
      var first := DispatchOutbound(s, queue[0]);
      assert AllOutward(first.out);
      hide AllOutward, DispatchOutbound;
      QueueOutward(first.s, queue[1..]);
      OutwardBoth(first.out, DispatchQueue(first.s, queue[1..]).out);
    } else {
      assert AllOutward([]);
    }
  }

  lemma {:induction false} CompleteOutward(s: SessionView)
    requires s.WellFormed()
    ensures AllOutward(CompleteReplay(s).out)
  {
    if s.replay.Some? {
      var fill := FillTrailing(s);
      var queue := DispatchQueue(fill.s.(replay := None), s.replay.value.queue);
      var sync := RequestSyncTestRequest(queue.s);
      assert AllOutward(fill.out) && AllOutward(sync.out);
      hide DispatchQueue, AllOutward, FillTrailing, RequestSyncTestRequest;
      QueueOutward(fill.s.(replay := None), s.replay.value.queue);
      OutwardBoth(fill.out, queue.out);
      OutwardBoth(fill.out + queue.out, sync.out);
    } else {
      assert AllOutward([]);
    }
  }

  // ---------------------------------------------------------------------
  // Messages taken in sequence
  // ---------------------------------------------------------------------

  /** The message an input uses up: heard, and standing for numbers that start with the one expected. */
  function TakenBy(s: SessionView, input: Input): seq<Message> {
    var heard := Heard(s, input);
    if heard.Some? && StandsFor(heard.value).Some? && StandsFor(heard.value).value.First() == s.nextIn then [heard.value]
    else []
  }

  /** The messages a run uses up, in order. */
  function Taken(s: SessionView, inputs: seq<Input>): seq<Message>
    requires s.WellFormed()
  {
    if inputs == [] then []
    else
      var before := inputs[..|inputs| - 1];
      Taken(s, before) + TakenBy(After(s, before), inputs[|inputs| - 1])
  }

  // ---------------------------------------------------------------------
  // What the application is handed
  // ---------------------------------------------------------------------

  function DeliveryOf(o: Output): seq<(nat, Message)> {
    if o.Raise? && o.event.MessageReceived? then [(o.event.seqNum, o.event.msg)] else []
  }

  /** Application messages, and Rejects of the application's own, under the numbers they carry. */
  function ForApplication(msgs: seq<Message>): seq<(nat, Message)> {
    if msgs == [] then []
    else
      var k := |msgs| - 1;
      ForApplication(msgs[..k])
      + if (msgs[k].msgType.Application? || msgs[k].msgType.Reject?) && msgs[k].seqNum.Some?
        then [(msgs[k].seqNum.value, msgs[k])] else []
  }

  lemma {:induction false} ForApplicationAppend(a: seq<Message>, b: seq<Message>)
    requires |b| <= 1
    ensures ForApplication(a + b) == ForApplication(a) + ForApplication(b)
  {
    if b == [] {
      assert a + b == a;
    } else {
      assert (a + b)[..|a|] == a && b[..0] == [];
      assert ForApplication(b) == [] + ForApplication(b);
    }
  }

  lemma {:induction false} NothingForApplication()
    ensures ForApplication([]) == []
  {
  }

  lemma {:induction false} StepDelivers(s: SessionView, input: Input)
    requires s.WellFormed()
    ensures Picked(StepOf(s, input).out, DeliveryOf) == ForApplication(TakenBy(s, input))
  {
    DeliveriesInward();
    var now := if input.Receive? || input.PeerLogon? then input.now else 0;
    hide StepOf, Inward, HeardPicked, ForApplication, Picked;
    StepPicked(s, input, now, DeliveryOf);
    NothingForApplication();
    if Heard(s, input).Some? {
      HeardDelivers(s, Heard(s, input).value, now);
    }
  }

  lemma {:induction false} DeliveriesInward()
    ensures Inward(DeliveryOf)
  {
  }

  lemma {:induction false} HeardDelivers(s: SessionView, msg: Message, now: nat)
    ensures HeardPicked(s, msg, now, DeliveryOf)
            == if StandsFor(msg).Some? && StandsFor(msg).value.First() == s.nextIn then ForApplication([msg]) else []
  {
    UnplaceableStands(msg);
    hide StandsFor;
    OneForApplication(msg);
    if StandsFor(msg).Some? && StandsFor(msg).value.First() == s.nextIn {
      PromptDelivers(Advanced(s, msg), msg, now);
      hide Picked, Prompted, ForApplication;
    } else {
      PickedOne(OpenReplay(s, msg).out, DeliveryOf);
      hide Picked, ForApplication;
    }
  }

  lemma {:induction false} OneForApplication(msg: Message)
    ensures ForApplication([msg])
            == if (msg.msgType.Application? || msg.msgType.Reject?) && msg.seqNum.Some? then [(msg.seqNum.value, msg)] else []
  {
    assert [msg][..0] == [];
  }

  lemma {:induction false} PromptDelivers(s: SessionView, msg: Message, now: nat)
    ensures Picked(Prompted(s, msg, now).out, DeliveryOf) == []
  {
    PickedOne(Prompted(s, msg, now).out, DeliveryOf);
    hide Picked;
  }

  /**
   * Over any run at all: what the application is handed is, in order and under its own number, each
   * message used up in sequence that is an application message or a Reject, and nothing else.
   */
  lemma {:induction false} HandedInOrder(s: SessionView, inputs: seq<Input>)
    requires s.WellFormed()
    ensures Picked(Log(s, inputs), DeliveryOf) == ForApplication(Taken(s, inputs))
  {
    if inputs != [] {
      hide StepOf, TakenBy, Picked, ForApplication;
      var before, last := inputs[..|inputs| - 1], inputs[|inputs| - 1];
      HandedInOrder(s, before);
      StepDelivers(After(s, before), last);
      PickedAppend(Log(s, before), StepOf(After(s, before), last).out, DeliveryOf);
      OneTaken(After(s, before), last);
      ForApplicationAppend(Taken(s, before), TakenBy(After(s, before), last));
    } else {
      NothingForApplication();
      PickedOne([], DeliveryOf);
    }
  }

  lemma {:induction false} OneTaken(s: SessionView, input: Input)
    ensures |TakenBy(s, input)| <= 1
  {
  }

  // ---------------------------------------------------------------------
  // What the application is asked to replay
  // ---------------------------------------------------------------------

  function RangeOf(o: Output): seq<Range> {
    if o.Raise? && o.event.ResendRequested? then [Range(o.event.beginSeqNo, o.event.endSeqNo)] else []
  }

  /** The range a request names, if it names one; an open end is the last number sent. */
  function Named(msg: Message, lastSent: nat): seq<Range> {
    if msg.beginSeqNo.None? || msg.endSeqNo.None? then []
    else
      var b, e := msg.beginSeqNo.value, msg.endSeqNo.value;
      if b == 0 || (e > 0 && b > e) then [] else [Range(b, if e > 0 then e else lastSent)]
  }

  /** What an input asks for: a ResendRequest heard in sequence or beyond it, with no replay outstanding. */
  function AskedBy(s: SessionView, input: Input, lastSent: nat): seq<Range> {
    var heard := Heard(s, input);
    if heard.None? || !heard.value.msgType.ResendRequest? || heard.value.seqNum.None? then []
    else if heard.value.seqNum.value < s.nextIn || s.replay.Some? then []
    else Named(heard.value, lastSent)
  }

  lemma {:induction false} RangesInward()
    ensures Inward(RangeOf)
  {
  }

  lemma {:induction false} OpenNames(s: SessionView, msg: Message)
    ensures Picked(OpenReplay(s, msg).out, RangeOf) == if s.replay.Some? then [] else Named(msg, s.highestSent)
  {
    PickedOne(OpenReplay(s, msg).out, RangeOf);
    hide Picked;
  }

  lemma {:induction false} PromptNames(s: SessionView, msg: Message, now: nat)
    requires !msg.msgType.ResendRequest?
    ensures Picked(Prompted(s, msg, now).out, RangeOf) == []
  {
    PickedOne(Prompted(s, msg, now).out, RangeOf);
    hide Picked;
  }

  lemma {:induction false} HeardNames(s: SessionView, msg: Message, now: nat)
    ensures HeardPicked(s, msg, now, RangeOf)
            == if !msg.msgType.ResendRequest? || msg.seqNum.None? || msg.seqNum.value < s.nextIn || s.replay.Some? then []
               else Named(msg, s.highestSent)
  {
    UnplaceableStands(msg);
    hide StandsFor, Picked;
    OpenNames(s, msg);
    if StandsFor(msg).Some? && StandsFor(msg).value.First() == s.nextIn {
      var s1 := Advanced(s, msg);
      OpenNames(s1, msg);
      if !msg.msgType.ResendRequest? {
        PromptNames(s1, msg, now);
      }
      hide OpenReplay, Named;
      assert Picked(OpenReplay(s1, msg).out, RangeOf) + [] == Picked(OpenReplay(s1, msg).out, RangeOf);
    }
  }

  lemma {:induction false} StepNames(s: SessionView, input: Input)
    requires s.WellFormed()
    ensures Picked(StepOf(s, input).out, RangeOf) == AskedBy(s, input, s.highestSent)
  {
    RangesInward();
    var now := if input.Receive? || input.PeerLogon? then input.now else 0;
    hide StepOf, Inward, HeardPicked, Picked, Named;
    StepPicked(s, input, now, RangeOf);
    if Heard(s, input).Some? {
      HeardNames(s, Heard(s, input).value, now);
    }
  }

  /** The highest number on the wire. */
  function HighestSent(log: seq<Output>): nat {
    if log == [] then 0
    else
      var k := |log| - 1;
      Max(HighestSent(log[..k]), if log[k].Transmit? && log[k].msg.seqNum.Some? then log[k].msg.seqNum.value else 0)
  }

  lemma {:induction false} HighestAppend(a: seq<Output>, b: seq<Output>)
    ensures HighestSent(a + b) == Max(HighestSent(a), HighestSent(b))
    decreases |b|
  {
    if b == [] {
      assert a + b == a;
    } else {
      assert (a + b)[..|a + b| - 1] == a + b[..|b| - 1];
      HighestAppend(a, b[..|b| - 1]);
    }
  }

  lemma {:induction false} NoneSent(log: seq<Output>)
    requires forall i :: 0 <= i < |log| ==> log[i].Raise?
    ensures HighestSent(log) == 0
    decreases |log|
  {
    if log != [] {
      NoneSent(log[..|log| - 1]);
    }
  }

  /** A call that counts what it sends. */
  predicate Counts(s: SessionView, r: Step) {
    r.s.highestSent == Max(s.highestSent, HighestSent(r.out))
  }

  lemma {:induction false} CountsThen(s: SessionView, a: Step, b: Step, outcome: Outcome)
    requires Counts(s, a) && Counts(a.s, b)
    ensures Counts(s, Step(b.s, a.out + b.out, outcome))
  {
    HighestAppend(a.out, b.out);
  }

  lemma {:induction false} TransmitCounts(s: SessionView, msg: Message, role: Role)
    requires msg.seqNum.Some?
    ensures Counts(s, Transmitted(s, msg, role))
  {
    var t := Transmitted(s, msg, role);
    assert t.out[..1] == [Transmit(msg, role)] && t.out[..1][..0] == [];
    assert HighestSent(t.out[..1]) == msg.seqNum.value;
  }

  lemma {:induction false} DispatchCounts(s: SessionView, msg: Message)
    requires msg.seqNum.Some?
    ensures Counts(s, DispatchOutbound(s, msg))
  {
    var t := Transmitted(s, msg, New);
    TransmitCounts(s, msg, New);
    NoneSent([Raise(LoggedOn)]);
    hide HighestSent;
    HighestAppend(t.out, [Raise(LoggedOn)]);
    assert t.out + [] == t.out;
  }

  lemma {:induction false} QueueCounts(s: SessionView, queue: seq<Message>)
    requires forall i :: 0 <= i < |queue| ==> queue[i].seqNum.Some?
    ensures Counts(s, DispatchQueue(s, queue))
    decreases |queue|
  {
    if queue != [] {
      hide DispatchOutbound, Counts;
      var first := DispatchOutbound(s, queue[0]);
      DispatchCounts(s, queue[0]);
      QueueCounts(first.s, queue[1..]);
      var rest := DispatchQueue(first.s, queue[1..]);
      CountsThen(s, first, rest, rest.outcome);
    }
  }

  lemma {:induction false} QuietCounts(s: SessionView, r: Step)
    requires r.s.highestSent == s.highestSent && forall i :: 0 <= i < |r.out| ==> r.out[i].Raise?
    ensures Counts(s, r)
  {
    NoneSent(r.out);
  }

  lemma {:induction false} SendCounts(s: SessionView, msg: Message, now: nat)
    ensures Counts(s, SendMessage(s, msg, now))
  {
    if !Refused(s, msg) {
      var timers := if msg.IsAdmin() then s.timers else s.timers.(nextOut := now + s.interval);
      DispatchCounts(s.(highestAccepted := msg.seqNum.value, timers := timers), msg);
    }
    hide DispatchOutbound;
  }

  lemma {:induction false} ReplayCounts(s: SessionView, msg: Message)
    requires s.WellFormed()
    ensures Counts(s, ReplayMessage(s, msg))
  {
    var r := ReplayMessage(s, msg);
    if r.out == [] {
      QuietCounts(s, r);
    } else {
      var n, gapFilled := msg.seqNum.value, msg.GapFilledInReplay();
      RetransmissionCounts(s.(replay := Some(OfferView(s.replay.value, n, gapFilled))), msg,
                           OfferStep(s.replay.value, n, gapFilled).gapFill);
    }
    hide Retransmission;
  }

  lemma {:induction false} RetransmissionCounts(s: SessionView, msg: Message, gapFill: Option<Range>)
    requires msg.seqNum.Some?
    ensures Counts(s, Retransmission(s, msg, gapFill))
  {
    var fill := if gapFill.Some? then SendGapFill(s, gapFill.value) else Step(s, [], Continue);
    var sent := Transmitted(fill.s, ResentMessage(msg), Resent);
    if gapFill.Some? {
      TransmitCounts(s, GapFillMessage(gapFill.value), GapFill);
    }
    TransmitCounts(fill.s, ResentMessage(msg), Resent);
    CountsThen(s, fill, sent, Continue);
  }

  lemma {:induction false} CompleteCounts(s: SessionView)
    requires s.WellFormed()
    ensures Counts(s, CompleteReplay(s))
  {
    if s.replay.Some? {
      var fill := FillTrailing(s);
      if TrailingGapFill(s.replay.value).Some? {
        TransmitCounts(s, GapFillMessage(TrailingGapFill(s.replay.value).value), GapFill);
      }
      var open := fill.(s := fill.s.(replay := None));
      assert Counts(s, open);
      var queue := DispatchQueue(open.s, s.replay.value.queue);
      var sync := RequestSyncTestRequest(queue.s);
      QuietCounts(queue.s, sync);
      hide Counts, FillTrailing, DispatchQueue, RequestSyncTestRequest;
      QueueCounts(open.s, s.replay.value.queue);
      CountsThen(s, open, queue, queue.outcome);
      CountsThen(s, open, queue, Continue);
      CountsThen(s, Step(queue.s, fill.out + queue.out, Continue), sync, Continue);
    }
  }

  lemma {:induction false} CommandCounts(s: SessionView, cmd: Command, now: nat)
    requires s.WellFormed()
    ensures Counts(s, OnCommand(s, cmd, now))
  {
    hide SendMessage, ReplayMessage, CompleteReplay, Counts;
    var s1 := s.(timers := s.timers.(nextOut := now + s.interval));
    match cmd
    case Send(msg) => SendCounts(s, msg, now);
    case Replay(msg) =>
      ReplayCounts(s1, msg);
      SameCounts(s, s1, ReplayMessage(s1, msg));
    case ReplayComplete =>
      CompleteCounts(s1);
      SameCounts(s, s1, CompleteReplay(s1));
    case Disconnect => QuietCounts(s, RequestLogout(s, DISCONNECT_REQUESTED, now));
  }

  lemma {:induction false} SameCounts(s: SessionView, s1: SessionView, r: Step)
    requires Counts(s1, r) && s1.highestSent == s.highestSent
    ensures Counts(s, r)
  {
  }

  lemma {:induction false} StepCounts(s: SessionView, input: Input)
    requires s.WellFormed()
    ensures Counts(s, StepOf(s, input))
  {
    hide HandleSessionMessage, OnCommand, OnTimeout, Counts;
    match input
    case Apply(cmd, now) => CommandCounts(s, cmd, now);
    case Receive(msg, now) =>
      HandleFrame(s.(timers := s.timers.(nextIn := now + s.interval, missed := 0)), msg, now);
      QuietCounts(s, StepOf(s, input));
    case PeerLogon(logon, now) =>
      HandleFrame(s, logon, now);
      QuietCounts(s, StepOf(s, input));
    case Tick(now) => TickCounts(s, now);
    case AskLogon => QuietCounts(s, StepOf(s, input));
    case PeerClosed => QuietCounts(s, StepOf(s, input));
  }

  lemma {:induction false} TickCounts(s: SessionView, now: nat)
    ensures Counts(s, OnTimeout(s, now))
  {
    QuietCounts(s, OnTimeout(s, now));
  }

  /** A message heard changes only the inbound side and what a request opens; nothing is sent for it. */
  predicate Framed(s: SessionView, r: Step) {
    && r.s == s.(nextIn := r.s.nextIn, closing := r.s.closing, rerequest := r.s.rerequest, replay := r.s.replay,
                 recoveryTrId := r.s.recoveryTrId, highestAccepted := r.s.highestAccepted,
                 peerLogoutPending := r.s.peerLogoutPending)
    && forall i :: 0 <= i < |r.out| ==> FromHearing(r.out[i])
  }

  /** An event that hearing a message can lead to. */
  predicate FromHearing(o: Output) {
    match o
    case Raise(LoggedOn) => false
    case Raise(AdminSendRequired(msg)) => !msg.msgType.TestRequest? && !msg.msgType.Logon?
    case Raise(_) => true
    case Transmit(_, _) => false
  }

  lemma {:induction false} HandleFrame(s: SessionView, msg: Message, now: nat)
    ensures Framed(s, HandleSessionMessage(s, msg, now))
  {
    hide HandleInSequence, HandleGap;
    if msg.seqNum.Some? {
      GapFrame(s, msg, now);
      if msg.msgType.SequenceReset? ==> msg.newSeqNo.Some? {
        InSequenceFrame(s, msg, now);
      }
    }
  }

  lemma {:induction false} DispatchFrame(s: SessionView, msg: Message, inSequence: bool, now: nat)
    requires msg.seqNum.Some?
    ensures Framed(s, DispatchMessage(s, msg, inSequence, now))
  {
  }

  lemma {:induction false} GapFrame(s: SessionView, msg: Message, now: nat)
    requires msg.seqNum.Some?
    ensures Framed(s, HandleGap(s, msg, now))
  {
    hide DispatchMessage;
    DispatchFrame(AskForGap(s, msg).s, msg, false, now);
  }

  lemma {:induction false} InSequenceFrame(s: SessionView, msg: Message, now: nat)
    requires msg.seqNum.Some? && (msg.msgType.SequenceReset? ==> msg.newSeqNo.Some?)
    ensures Framed(s, HandleInSequence(s, msg, now))
  {
    hide DispatchMessage;
    DispatchFrame(Advanced(s, msg), msg, true, now);
  }

  /** The ranges asked for over a run; an open end is the highest number on the wire by then. */
  function Asked(s: SessionView, inputs: seq<Input>): seq<Range>
    requires s.WellFormed()
  {
    if inputs == [] then []
    else
      var before := inputs[..|inputs| - 1];
      Asked(s, before) + AskedBy(After(s, before), inputs[|inputs| - 1], HighestSent(Log(s, before)))
  }

  lemma {:induction false} CountsThroughout(interval: nat, nextIn: nat, now: nat, inputs: seq<Input>)
    ensures var s := Initial(interval, nextIn, now);
            After(s, inputs).highestSent == HighestSent(Log(s, inputs))
  {
    if inputs != [] {
      hide StepOf, HighestSent;
      var s, before, last := Initial(interval, nextIn, now), inputs[..|inputs| - 1], inputs[|inputs| - 1];
      CountsThroughout(interval, nextIn, now, before);
      StepCounts(After(s, before), last);
      HighestAppend(Log(s, before), StepOf(After(s, before), last).out);
    }
  }

  /**
   * Over any run: the ranges the application is asked to replay are, in order, those of the
   * ResendRequests that came in sequence or in a gap while no replay was outstanding: from the number
   * asked for to the number asked for, or to the last one sent if the end was left open.
   */
  lemma {:induction false} AskedAsNamed(interval: nat, nextIn: nat, now: nat, inputs: seq<Input>)
    ensures var s := Initial(interval, nextIn, now);
            Picked(Log(s, inputs), RangeOf) == Asked(s, inputs)
  {
    if inputs != [] {
      hide StepOf, AskedBy, Picked, HighestSent;
      var s, before, last := Initial(interval, nextIn, now), inputs[..|inputs| - 1], inputs[|inputs| - 1];
      AskedAsNamed(interval, nextIn, now, before);
      CountsThroughout(interval, nextIn, now, before);
      StepNames(After(s, before), last);
      PickedAppend(Log(s, before), StepOf(After(s, before), last).out, RangeOf);
    } else {
      PickedOne([], RangeOf);
    }
  }
}
