/** The wire as the application may watch it (session/state.rs:252-269, 531-558), over whole runs. */
module RawEvents {
  import opened FixMessage
  import opened Logs
  import opened Replaying
  import opened Session
  import opened SessionRuns
  import opened Deliveries

  function SentOf(o: Output): seq<Message> {
    if o.Transmit? then [o.msg] else []
  }

  function SeenSent(o: Output): seq<Message> {
    if o.Raise? && o.event.RawMessageSent? then [o.event.msg] else []
  }

  function SeenReceived(o: Output): seq<Message> {
    if o.Raise? && o.event.RawMessageReceived? then [o.event.msg] else []
  }

  function ReceivedBy(input: Input): seq<Message> {
    if input.Receive? then [input.msg] else []
  }

  /** What is sent is reported, message by message, and nothing is reported received. */
  predicate Reports(log: seq<Output>) {
    Picked(log, SeenSent) == Picked(log, SentOf) && Picked(log, SeenReceived) == []
  }

  lemma {:induction false} ReportsThen(a: seq<Output>, b: seq<Output>)
    requires Reports(a) && Reports(b)
    ensures Reports(a + b)
  {
    PickedAppend(a, b, SeenSent);
    PickedAppend(a, b, SentOf);
    PickedAppend(a, b, SeenReceived);
  }

  /** Nothing of the wire. */
  predicate OffWire(o: Output) {
    o.Raise? && !o.event.RawMessageSent? && !o.event.RawMessageReceived?
  }

  lemma {:induction false} OthersReport(log: seq<Output>)
    requires forall i :: 0 <= i < |log| ==> OffWire(log[i])
    ensures Reports(log)
  {
    NonePicked(log, SeenSent);
    NonePicked(log, SentOf);
    NonePicked(log, SeenReceived);
  }

  lemma {:induction false} TransmittedReports(s: SessionView, msg: Message, role: Role)
    requires msg.seqNum.Some?
    ensures Reports(Transmitted(s, msg, role).out)
  {
    hide Picked;
    var a, b := Transmit(msg, role), Raise(RawMessageSent(msg));
    assert [a] + [b] == [a, b];
    PickedAppend([a], [b], SeenSent);
    PickedAppend([a], [b], SentOf);
    PickedAppend([a], [b], SeenReceived);
    PickedOne([a], SeenSent);
    PickedOne([b], SeenSent);
    PickedOne([a], SentOf);
    PickedOne([b], SentOf);
    PickedOne([a], SeenReceived);
    PickedOne([b], SeenReceived);
  }

  lemma {:induction false} DispatchReports(s: SessionView, msg: Message)
    requires msg.seqNum.Some?
    ensures Reports(DispatchOutbound(s, msg).out)
  {
    var t := Transmitted(s, msg, New);
    TransmittedReports(s, msg, New);
    OthersReport([Raise(LoggedOn)]);
    hide Reports;
    ReportsThen(t.out, [Raise(LoggedOn)]);
    assert t.out + [] == t.out;
  }

  lemma {:induction false} QueueReports(s: SessionView, queue: seq<Message>)
    requires forall i :: 0 <= i < |queue| ==> queue[i].seqNum.Some?
    ensures Reports(DispatchQueue(s, queue).out)
    decreases |queue|
  {
    hide Reports, DispatchOutbound;
    if queue == [] {
      OthersReport([]);
    } else {
      var first := DispatchOutbound(s, queue[0]);
      DispatchReports(s, queue[0]);
      QueueReports(first.s, queue[1..]);
      ReportsThen(first.out, DispatchQueue(first.s, queue[1..]).out);
    }
  }

  lemma {:induction false} SendReports(s: SessionView, msg: Message, now: nat)
    ensures Reports(SendMessage(s, msg, now).out)
  {
    hide Reports, DispatchOutbound;
    OthersReport([]);
    if !Refused(s, msg) {
      var timers := if msg.IsAdmin() then s.timers else s.timers.(nextOut := now + s.interval);
      DispatchReports(s.(highestAccepted := msg.seqNum.value, timers := timers), msg);
    }
  }

  lemma {:induction false} RetransmissionReports(s: SessionView, msg: Message, gapFill: Option<Range>)
    requires msg.seqNum.Some?
    ensures Reports(Retransmission(s, msg, gapFill).out)
  {
    hide Reports, Transmitted;
    OthersReport([]);
    var fill := if gapFill.Some? then SendGapFill(s, gapFill.value) else Step(s, [], Continue);
    if gapFill.Some? {
      TransmittedReports(s, GapFillMessage(gapFill.value), GapFill);
    }
    TransmittedReports(fill.s, ResentMessage(msg), Resent);
    ReportsThen(fill.out, Transmitted(fill.s, ResentMessage(msg), Resent).out);
  }

  lemma {:induction false} ReplayReports(s: SessionView, msg: Message)
    requires s.WellFormed()
    ensures Reports(ReplayMessage(s, msg).out)
  {
    hide Reports, Retransmission;
    OthersReport([]);
    if msg.seqNum.Some? && s.replay.Some? {
      var n, gapFilled := msg.seqNum.value, msg.GapFilledInReplay();
      var step := OfferStep(s.replay.value, n, gapFilled);
      if step.Retransmit? {
        RetransmissionReports(s.(replay := Some(OfferView(s.replay.value, n, gapFilled))), msg, step.gapFill);
      }
    }
  }

  lemma {:induction false} CompleteReports(s: SessionView)
    requires s.WellFormed()
    ensures Reports(CompleteReplay(s).out)
  {
    hide Reports, Transmitted, DispatchQueue;
    OthersReport([]);
    if s.replay.Some? {
      var fill := FillTrailing(s);
      if TrailingGapFill(s.replay.value).Some? {
        TransmittedReports(s, GapFillMessage(TrailingGapFill(s.replay.value).value), GapFill);
      }
      assert Reports(fill.out);
      hide FillTrailing;
      var queue := DispatchQueue(fill.s.(replay := None), s.replay.value.queue);
      var sync := RequestSyncTestRequest(queue.s);
      OthersReport(sync.out);
      QueueReports(fill.s.(replay := None), s.replay.value.queue);
      ReportsThen(fill.out, queue.out);
      ReportsThen(fill.out + queue.out, sync.out);
    }
  }

  lemma {:induction false} CommandReports(s: SessionView, cmd: Command, now: nat)
    requires s.WellFormed()
    ensures Reports(OnCommand(s, cmd, now).out)
  {
    hide SendMessage, ReplayMessage, CompleteReplay, Reports;
    var s1 := s.(timers := s.timers.(nextOut := now + s.interval));
    match cmd
    case Send(msg) => SendReports(s, msg, now);
    case Replay(msg) => ReplayReports(s1, msg);
    case ReplayComplete => CompleteReports(s1);
    case Disconnect => OthersReport(RequestLogout(s, DISCONNECT_REQUESTED, now).out);
  }

  /** What hearing a message leads to says nothing of the wire. */
  lemma {:induction false} HandleOffWire(s: SessionView, msg: Message, now: nat)
    ensures forall i :: 0 <= i < |HandleSessionMessage(s, msg, now).out| ==> OffWire(HandleSessionMessage(s, msg, now).out[i])
  {
    hide HandleInSequence, HandleGap;
    if msg.seqNum.Some? {
      GapOffWire(s, msg, now);
      if msg.msgType.SequenceReset? ==> msg.newSeqNo.Some? {
        InSequenceOffWire(s, msg, now);
      }
    }
  }

  predicate AllOffWire(log: seq<Output>) {
    forall i :: 0 <= i < |log| ==> OffWire(log[i])
  }

  lemma {:induction false} DispatchOffWire(s: SessionView, msg: Message, inSequence: bool, now: nat)
    requires msg.seqNum.Some?
    ensures AllOffWire(DispatchMessage(s, msg, inSequence, now).out)
  {
  }

  lemma {:induction false} GapOffWire(s: SessionView, msg: Message, now: nat)
    requires msg.seqNum.Some?
    ensures AllOffWire(HandleGap(s, msg, now).out)
  {
    hide DispatchMessage;
    DispatchOffWire(AskForGap(s, msg).s, msg, false, now);
  }

  lemma {:induction false} InSequenceOffWire(s: SessionView, msg: Message, now: nat)
    requires msg.seqNum.Some? && (msg.msgType.SequenceReset? ==> msg.newSeqNo.Some?)
    ensures AllOffWire(HandleInSequence(s, msg, now).out)
  {
    hide DispatchMessage;
    DispatchOffWire(Advanced(s, msg), msg, true, now);
  }

  lemma {:induction false} StepReports(s: SessionView, input: Input)
    requires s.WellFormed()
    ensures var out := StepOf(s, input).out;
            Picked(out, SeenSent) == Picked(out, SentOf) && Picked(out, SeenReceived) == ReceivedBy(input)
  {
    hide OnCommand, OnTimeout, HandleSessionMessage, Picked;
    match input
    case Apply(cmd, now) => CommandReports(s, cmd, now);
    case Tick(now) => TickReports(s, now);
    case Receive(msg, now) => ReceiveReports(s, msg, now);
    case PeerLogon(logon, now) =>
      HandleOffWire(s, logon, now);
      OthersReport(StepOf(s, input).out);
    case AskLogon => OthersReport(StepOf(s, input).out);
    case PeerClosed => OthersReport(StepOf(s, input).out);
  }

  lemma {:induction false} TickReports(s: SessionView, now: nat)
    ensures Reports(OnTimeout(s, now).out)
  {
    hide Reports;
    OthersReport(OnTimeout(s, now).out);
  }

  lemma {:induction false} ReceiveReports(s: SessionView, msg: Message, now: nat)
    ensures var out := OnMessage(s, msg, now).out;
            Picked(out, SeenSent) == Picked(out, SentOf) && Picked(out, SeenReceived) == [msg]
  {
    hide HandleSessionMessage, Picked;
    var s1 := s.(timers := s.timers.(nextIn := now + s.interval, missed := 0));
    var first, out := [Raise(RawMessageReceived(msg))], OnMessage(s, msg, now).out;
    var rest := out[1..];
    assert out == first + rest;
    HandleOffWire(s1, msg, now);
    OthersReport(rest);
    PickedOne(first, SeenSent);
    PickedOne(first, SentOf);
    PickedOne(first, SeenReceived);
    PickedAppend(first, rest, SeenSent);
    PickedAppend(first, rest, SentOf);
    PickedAppend(first, rest, SeenReceived);
  }

  /**
   * Over any run, the messages reported sent are the messages sent, and those reported received are the
   * messages received, in order: whatever their numbers, and also once the session is ending.
   */
  lemma {:induction false} WireIsReported(s: SessionView, inputs: seq<Input>)
    requires s.WellFormed()
    ensures Picked(Log(s, inputs), SeenSent) == Picked(Log(s, inputs), SentOf)
    ensures Picked(Log(s, inputs), SeenReceived) == Picked(inputs, ReceivedBy)
  {
    hide StepOf, Picked, SeenSent, SentOf, SeenReceived, ReceivedBy;
    if inputs == [] {
      OthersReport([]);
      PickedOne<Input, Message>([], ReceivedBy);
    } else {
      var before, last := inputs[..|inputs| - 1], inputs[|inputs| - 1];
      var out := StepOf(After(s, before), last).out;
      WireIsReported(s, before);
      StepReports(After(s, before), last);
      PickedAppend(Log(s, before), out, SeenSent);
      PickedAppend(Log(s, before), out, SentOf);
      PickedAppend(Log(s, before), out, SeenReceived);
      PickedOne([last], ReceivedBy);
      PickedAppend(before, [last], ReceivedBy);
      assert inputs == before + [last];
    }
  }
}
