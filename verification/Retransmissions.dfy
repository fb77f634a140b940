/** What the wire sees again, over whole runs (session/state.rs:585-624): the messages offered, marked as copies. */
module Retransmissions {
  import opened FixMessage
  import opened Logs
  import opened Replaying
  import opened Session
  import opened SessionRuns
  import opened Outbound
  import opened Deliveries

  function ResentOf(o: Output): seq<Message> {
    if o.Transmit? && o.role == Resent then [o.msg] else []
  }

  /** A copy: marked as one, without a time of its own, and with the time the message first went out. */
  predicate CopyOf(copy: Message, msg: Message) {
    && copy.possDup && copy.sendingTime.None?
    && copy.origSendingTime.Some?
    && copy.origSendingTime == (if msg.origSendingTime.Some? then msg.origSendingTime else msg.sendingTime)
    && copy == msg.(possDup := copy.possDup, sendingTime := copy.sendingTime, origSendingTime := copy.origSendingTime)
  }

  predicate CopiesOf(copies: seq<Message>, msgs: seq<Message>) {
    |copies| == |msgs| && forall i :: 0 <= i < |msgs| ==> CopyOf(copies[i], msgs[i])
  }

  /** A message that a replay sends again: not yet passed, asked for, of a type that is, with a time. */
  predicate Wanted(s: SessionView, msg: Message) {
    && s.replay.Some? && msg.seqNum.Some?
    && s.replay.value.nextExpected <= msg.seqNum.value <= s.replay.value.endSeqNo
    && (msg.msgType.Application? || msg.msgType.Reject? || msg.msgType.XmlNonFix?)
    && (msg.origSendingTime.Some? || msg.sendingTime.Some?)
  }

  /** The offer an input makes that is sent again. */
  function OfferedBy(s: SessionView, input: Input): seq<Message> {
    if input.Apply? && input.cmd.Replay? && Wanted(s, input.cmd.msg) then [input.cmd.msg] else []
  }

  function Offered(s: SessionView, inputs: seq<Input>): seq<Message>
    requires s.WellFormed()
  {
    if inputs == [] then []
    else
      var before := inputs[..|inputs| - 1];
      Offered(s, before) + OfferedBy(After(s, before), inputs[|inputs| - 1])
  }

  lemma {:induction false} ReplayCopies(s: SessionView, msg: Message)
    requires s.WellFormed()
    ensures CopiesOf(Picked(ReplayMessage(s, msg).out, ResentOf), if Wanted(s, msg) then [msg] else [])
  {
    hide Picked;
    var r := ReplayMessage(s, msg);
    if r.out == [] {
      PickedOne([], ResentOf);
    } else {
      var n := msg.seqNum.value;
      var fill, sent := r.out[..|r.out| - 2], r.out[|r.out| - 2..];
      assert r.out == fill + sent;
      assert sent == [Transmit(ResentMessage(msg), Resent), Raise(RawMessageSent(ResentMessage(msg)))];
      NonePicked(fill, ResentOf);
      PickedAppend(fill, sent, ResentOf);
      OneCopy(ResentMessage(msg));
    }
  }

  lemma {:induction false} OneCopy(msg: Message)
    ensures Picked([Transmit(msg, Resent), Raise(RawMessageSent(msg))], ResentOf) == [msg]
  {
    hide Picked;
    var a, b := Transmit(msg, Resent), Raise(RawMessageSent(msg));
    PickedOne([a], ResentOf);
    PickedOne([b], ResentOf);
    PickedAppend([a], [b], ResentOf);
    assert [a] + [b] == [a, b];
  }

  lemma {:induction false} QueueCopies(s: SessionView, queue: seq<Message>)
    requires forall i :: 0 <= i < |queue| ==> queue[i].seqNum.Some?
    ensures Picked(DispatchQueue(s, queue).out, ResentOf) == []
    decreases |queue|
  {
    hide Picked;
    if queue == [] {
      PickedOne([], ResentOf);
    } else {
      var first := DispatchOutbound(s, queue[0]);
      NonePicked(first.out, ResentOf);
      hide DispatchOutbound;
      QueueCopies(first.s, queue[1..]);
      PickedAppend(first.out, DispatchQueue(first.s, queue[1..]).out, ResentOf);
    }
  }

  lemma {:induction false} CompleteCopies(s: SessionView)
    requires s.WellFormed()
    ensures Picked(CompleteReplay(s).out, ResentOf) == []
  {
    hide Picked;
    if s.replay.Some? {
      var fill := FillTrailing(s);
      NonePicked(fill.out, ResentOf);
      hide FillTrailing, DispatchQueue;
      var queue := DispatchQueue(fill.s.(replay := None), s.replay.value.queue);
      var sync := RequestSyncTestRequest(queue.s);
      NonePicked(sync.out, ResentOf);
      hide RequestSyncTestRequest;
      QueueCopies(fill.s.(replay := None), s.replay.value.queue);
      PickedAppend(fill.out, queue.out, ResentOf);
      PickedAppend(fill.out + queue.out, sync.out, ResentOf);
    } else {
      PickedOne([], ResentOf);
    }
  }

  lemma {:induction false} SendCopies(s: SessionView, msg: Message, now: nat)
    ensures Picked(SendMessage(s, msg, now).out, ResentOf) == []
  {
    hide Picked;
    NonePicked(SendMessage(s, msg, now).out, ResentOf);
  }

  lemma {:induction false} CommandCopies(s: SessionView, cmd: Command, now: nat)
    requires s.WellFormed()
    ensures CopiesOf(Picked(OnCommand(s, cmd, now).out, ResentOf), OfferedBy(s, Apply(cmd, now)))
  {
    hide SendMessage, ReplayMessage, CompleteReplay, Picked;
    var s1 := s.(timers := s.timers.(nextOut := now + s.interval));
    match cmd
    case Send(msg) => SendCopies(s, msg, now);
    case Replay(msg) => ReplayCopies(s1, msg);
    case ReplayComplete => CompleteCopies(s1);
    case Disconnect => NonePicked(RequestLogout(s, DISCONNECT_REQUESTED, now).out, ResentOf);
  }

  lemma {:induction false} StepCopies(s: SessionView, input: Input)
    requires s.WellFormed()
    ensures CopiesOf(Picked(StepOf(s, input).out, ResentOf), OfferedBy(s, input))
  {
    hide Picked, OnCommand, OnTimeout, HandleSessionMessage;
    match input
    case Apply(cmd, now) => CommandCopies(s, cmd, now);
    case Receive(msg, now) =>
      HandleFrame(s.(timers := s.timers.(nextIn := now + s.interval, missed := 0)), msg, now);
      NonePicked(StepOf(s, input).out, ResentOf);
    case PeerLogon(logon, now) =>
      HandleFrame(s, logon, now);
      NonePicked(StepOf(s, input).out, ResentOf);
    case Tick(now) => TickCopies(s, now);
    case AskLogon => NonePicked(StepOf(s, input).out, ResentOf);
    case PeerClosed => NonePicked(StepOf(s, input).out, ResentOf);
  }

  lemma {:induction false} TickCopies(s: SessionView, now: nat)
    ensures Picked(OnTimeout(s, now).out, ResentOf) == []
  {
    hide Picked;
    NonePicked(OnTimeout(s, now).out, ResentOf);
  }

  lemma {:induction false} CopiesAppend(a: seq<Message>, b: seq<Message>, a': seq<Message>, b': seq<Message>)
    requires CopiesOf(a, a') && CopiesOf(b, b')
    ensures CopiesOf(a + b, a' + b')
  {
    hide CopyOf;
  }

  /**
   * Over any run, what is sent again is, in order, what was offered for a replay and wanted by it: each
   * message as it was offered, but for the mark of a copy and its times. The time it first went out is the
   * one it says it did, and failing that the one it was sent with.
   */
  lemma {:induction false} ResentAsOffered(s: SessionView, inputs: seq<Input>)
    requires s.WellFormed()
    ensures CopiesOf(Picked(Log(s, inputs), ResentOf), Offered(s, inputs))
  {
    if inputs != [] {
      hide StepOf, OfferedBy, Picked, CopiesOf;
      var before, last := inputs[..|inputs| - 1], inputs[|inputs| - 1];
      var mid := After(s, before);
      ResentAsOffered(s, before);
      StepCopies(mid, last);
      PickedAppend(Log(s, before), StepOf(mid, last).out, ResentOf);
      CopiesAppend(Picked(Log(s, before), ResentOf), Picked(StepOf(mid, last).out, ResentOf),
                   Offered(s, before), OfferedBy(mid, last));
    } else {
      PickedOne([], ResentOf);
    }
  }
}
