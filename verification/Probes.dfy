/**
 * Test Requests, both ways, over whole runs (session/state.rs:230-249, 385-394, 626-654, 788-876): the
 * peer's are answered with the identifiers they carry; ours carry new ones, and recovery is over when
 * the last one that asks for it is echoed.
 */
module Probes {
  import opened FixMessage
  import opened Logs
  import opened Replaying
  import opened Session
  import opened SessionRuns
  import opened Inbound
  import opened Deliveries

  // ---------------------------------------------------------------------
  // The peer's
  // ---------------------------------------------------------------------

  function AnswerOf(o: Output): seq<Message> {
    if o.Raise? && o.event.AdminSendRequired? && o.event.msg.msgType.Heartbeat? && o.event.msg.testReqId.Some?
    then [o.event.msg] else []
  }

  /** A Heartbeat for each Test Request, with its identifier. */
  function Answers(msgs: seq<Message>): seq<Message> {
    if msgs == [] then []
    else
      var k := |msgs| - 1;
      Answers(msgs[..k])
      + if msgs[k].msgType.TestRequest? && msgs[k].testReqId.Some?
        then [Blank(Heartbeat).(testReqId := msgs[k].testReqId)] else []
  }

  lemma {:induction false} AnswersAppend(a: seq<Message>, b: seq<Message>)
    requires |b| <= 1
    ensures Answers(a + b) == Answers(a) + Answers(b)
  {
    if b == [] {
      assert a + b == a;
    } else {
      assert (a + b)[..|a|] == a && b[..0] == [];
      assert Answers(b) == [] + Answers(b);
    }
  }

  lemma {:induction false} AnswersFew(msg: Message)
    ensures Answers([]) == []
    ensures Answers([msg]) == if msg.msgType.TestRequest? && msg.testReqId.Some?
                              then [Blank(Heartbeat).(testReqId := msg.testReqId)] else []
  {
    assert [msg][..0] == [];
  }

  lemma {:induction false} AnswersInward()
    ensures Inward(AnswerOf)
  {
  }

  lemma {:induction false} PromptAnswers(s: SessionView, msg: Message, now: nat)
    ensures Picked(Prompted(s, msg, now).out, AnswerOf) == Answers([msg])
  {
    hide Picked, Answers;
    AnswersFew(msg);
    PickedOne(Prompted(s, msg, now).out, AnswerOf);
  }

  lemma {:induction false} HeardAnswers(s: SessionView, msg: Message, now: nat)
    ensures HeardPicked(s, msg, now, AnswerOf)
            == if StandsFor(msg).Some? && StandsFor(msg).value.First() == s.nextIn then Answers([msg]) else []
  {
    UnplaceableStands(msg);
    hide StandsFor;
    AnswersFew(msg);
    PickedOne(OpenReplay(s, msg).out, AnswerOf);
    if StandsFor(msg).Some? && StandsFor(msg).value.First() == s.nextIn {
      PromptAnswers(Advanced(s, msg), msg, now);
      hide Picked, Prompted, Answers;
    }
    hide Picked, Answers;
  }

  lemma {:induction false} StepAnswers(s: SessionView, input: Input)
    requires s.WellFormed()
    ensures Picked(StepOf(s, input).out, AnswerOf) == Answers(TakenBy(s, input))
  {
    AnswersInward();
    var now := if input.Receive? || input.PeerLogon? then input.now else 0;
    hide StepOf, Inward, HeardPicked, Answers, Picked;
    StepPicked(s, input, now, AnswerOf);
    AnswersFew(Blank(Logon));
    if Heard(s, input).Some? {
      HeardAnswers(s, Heard(s, input).value, now);
    }
  }

  /**
   * Over any run: the Heartbeats asked for in answer are, in order, one for each Test Request used up
   * in sequence, with the identifier it carried.
   */
  lemma {:induction false} AnsweredInOrder(s: SessionView, inputs: seq<Input>)
    requires s.WellFormed()
    ensures Picked(Log(s, inputs), AnswerOf) == Answers(Taken(s, inputs))
  {
    if inputs != [] {
      hide StepOf, TakenBy, Picked, Answers;
      var before, last := inputs[..|inputs| - 1], inputs[|inputs| - 1];
      AnsweredInOrder(s, before);
      StepAnswers(After(s, before), last);
      PickedAppend(Log(s, before), StepOf(After(s, before), last).out, AnswerOf);
      OneTaken(After(s, before), last);
      AnswersAppend(Taken(s, before), TakenBy(After(s, before), last));
    } else {
      AnswersFew(Blank(Logon));
      PickedOne([], AnswerOf);
    }
  }

  // ---------------------------------------------------------------------
  // Our own: what they ask
  // ---------------------------------------------------------------------

  /** The number of the identifier in a Test Request that is asked for. */
  function NumberIn(o: Output): seq<nat> {
    if o.Raise? && o.event.AdminSendRequired? && o.event.msg.msgType.TestRequest? then
      match o.event.msg.testReqId
      case Some(Helo(n)) => [n]
      case Some(Hb(n)) => [n]
      case _ => [0]
    else []
  }

  /** The identifier in a Test Request that asks whether a resend is over. */
  function SyncOf(o: Output): seq<TestReqId> {
    if o.Raise? && o.event.AdminSendRequired? && o.event.msg.msgType.TestRequest? && o.event.msg.testReqId.Some?
       && o.event.msg.testReqId.value.Helo?
    then [o.event.msg.testReqId.value] else []
  }

  /** Nothing of Test Requests of ours. */
  predicate Untested(o: Output) {
    match o
    case Raise(AdminSendRequired(msg)) => !msg.msgType.TestRequest?
    case Raise(RecoveryCompleted) => false
    case _ => true
  }

  predicate AllUntested(log: seq<Output>) {
    forall i :: 0 <= i < |log| ==> Untested(log[i])
  }

  lemma {:induction false} UntestedBoth(a: seq<Output>, b: seq<Output>)
    ensures AllUntested(a + b) <==> AllUntested(a) && AllUntested(b)
  {
    hide Untested;
    if AllUntested(a + b) {
      assert forall i :: 0 <= i < |a| ==> a[i] == (a + b)[i];
      assert forall i :: 0 <= i < |b| ==> b[i] == (a + b)[|a| + i];
    }
  }

  lemma {:induction false} UntestedUnpicked(log: seq<Output>)
    requires AllUntested(log)
    ensures Picked(log, NumberIn) == [] && Picked(log, SyncOf) == []
  {
    NonePicked(log, NumberIn);
    NonePicked(log, SyncOf);
  }

  lemma {:induction false} QueueUntested(s: SessionView, queue: seq<Message>)
    requires forall i :: 0 <= i < |queue| ==> queue[i].seqNum.Some?
    ensures AllUntested(DispatchQueue(s, queue).out)
    decreases |queue|
  {
    if queue != [] {
      var first := DispatchOutbound(s, queue[0]);
      assert AllUntested(first.out);
      hide AllUntested, DispatchOutbound;
      QueueUntested(first.s, queue[1..]);
      UntestedBoth(first.out, DispatchQueue(first.s, queue[1..]).out);
    } else {
      assert AllUntested([]);
    }
  }

  /** A call is followed by a request to synchronise, or by none. */
  predicate Syncs(s: SessionView, r: Step, synced: bool) {
    && r.s.testRequestSeq == s.testRequestSeq + (if synced then 1 else 0)
    && (if synced then r.s.recoveryTrId == Some(Helo(s.testRequestSeq + 1)) else r.s.recoveryTrId == s.recoveryTrId)
    && Picked(r.out, NumberIn) == (if synced then [s.testRequestSeq + 1] else [])
    && Picked(r.out, SyncOf) == (if synced then [Helo(s.testRequestSeq + 1)] else [])
  }

  lemma {:induction false} QuietSyncs(s: SessionView, r: Step)
    requires AllUntested(r.out) && r.s.testRequestSeq == s.testRequestSeq && r.s.recoveryTrId == s.recoveryTrId
    ensures Syncs(s, r, false)
  {
    hide AllUntested, Picked;
    UntestedUnpicked(r.out);
  }

  lemma {:induction false} SyncThen(s: SessionView, out: seq<Output>, mid: SessionView)
    requires AllUntested(out) && mid.testRequestSeq == s.testRequestSeq
    ensures var sync := RequestSyncTestRequest(mid);
            Syncs(s, Step(sync.s, out + sync.out, Continue), true)
  {
    hide AllUntested, Picked;
    var sync := RequestSyncTestRequest(mid);
    UntestedUnpicked(out);
    PickedOne(sync.out, NumberIn);
    PickedOne(sync.out, SyncOf);
    PickedAppend(out, sync.out, NumberIn);
    PickedAppend(out, sync.out, SyncOf);
  }

  lemma {:induction false} CompleteSyncs(s: SessionView)
    requires s.WellFormed()
    ensures var r := CompleteReplay(s);
            Syncs(s, r, s.replay.Some? && s.closing.None? && r.outcome != Close)
  {
    if s.replay.Some? {
      var fill := FillTrailing(s);
      var open := fill.s.(replay := None);
      var queue := DispatchQueue(open, s.replay.value.queue);
      assert AllUntested(fill.out);
      hide Picked, AllUntested, FillTrailing, DispatchQueue, Syncs;
      assert open.testRequestSeq == s.testRequestSeq by { FillKeeps(s); }
      FillKeeps(s);
      QueueUntested(open, s.replay.value.queue);
      UntestedBoth(fill.out, queue.out);
      if queue.outcome == Close || queue.s.closing.Some? {
        QuietSyncs(s, CompleteReplay(s));
      } else {
        SyncThen(s, fill.out + queue.out, queue.s);
      }
    } else {
      assert AllUntested([]);
      QuietSyncs(s, CompleteReplay(s));
    }
  }

  lemma {:induction false} FillKeeps(s: SessionView)
    requires s.WellFormed() && s.replay.Some?
    ensures FillTrailing(s).s == s.(highestSent := FillTrailing(s).s.highestSent)
  {
  }

  lemma {:induction false} TailSyncs(s: SessionView)
    ensures Syncs(s, StartTail(s), s.closing.None?)
  {
    var s1 := s.(peerLogonReceived := true);
    var first := if s1.logonSent then [Raise(LoggedOn)] else [];
    assert AllUntested(first) && AllUntested([]);
    hide Picked, AllUntested;
    if s.closing.None? {
      SyncThen(s, first, s1);
    } else {
      QuietSyncs(s, StartTail(s));
    }
  }

  lemma {:induction false} MissAsks(s: SessionView, now: nat)
    ensures var r := HeartbeatMissed(s, now);
            && Picked(r.out, SyncOf) == []
            && Picked(r.out, NumberIn) == (if r.s.testRequestSeq == s.testRequestSeq then [] else [s.testRequestSeq + 1])
            && s.testRequestSeq <= r.s.testRequestSeq <= s.testRequestSeq + 1
  {
    hide Picked;
    PickedOne(HeartbeatMissed(s, now).out, NumberIn);
    PickedOne(HeartbeatMissed(s, now).out, SyncOf);
  }

  lemma {:induction false} BeatAsks(s: SessionView, now: nat)
    ensures AllUntested(HeartbeatDue(s, now).out)
  {
  }

  lemma {:induction false} TickAsks(s: SessionView, now: nat)
    ensures var r := OnTimeout(s, now);
            && Picked(r.out, SyncOf) == [] && r.s.recoveryTrId == s.recoveryTrId
            && Picked(r.out, NumberIn) == (if r.s.testRequestSeq == s.testRequestSeq then [] else [s.testRequestSeq + 1])
            && s.testRequestSeq <= r.s.testRequestSeq <= s.testRequestSeq + 1
  {
    hide Picked, HeartbeatDue, HeartbeatMissed, NumberIn, SyncOf, AllUntested;
    var beat := HeartbeatDue(s, now);
    var miss := HeartbeatMissed(beat.s, now);
    BeatAsks(s, now);
    UntestedUnpicked(beat.out);
    MissAsks(beat.s, now);
    PickedAppend(beat.out, miss.out, NumberIn);
    PickedAppend(beat.out, miss.out, SyncOf);
    PickedOne([], NumberIn);
    PickedOne([], SyncOf);
  }

  lemma {:induction false} SendUntested(s: SessionView, msg: Message, now: nat)
    ensures AllUntested(SendMessage(s, msg, now).out)
  {
  }

  lemma {:induction false} ReplayUntested(s: SessionView, msg: Message)
    requires s.WellFormed()
    ensures AllUntested(ReplayMessage(s, msg).out)
  {
  }

  lemma {:induction false} CommandSyncs(s: SessionView, cmd: Command, now: nat)
    requires s.WellFormed()
    ensures var r := OnCommand(s, cmd, now);
            Syncs(s, r, cmd.ReplayComplete? && s.replay.Some? && s.closing.None? && r.outcome != Close)
  {
    hide SendMessage, ReplayMessage, CompleteReplay, AllUntested, Syncs;
    var s1 := s.(timers := s.timers.(nextOut := now + s.interval));
    match cmd
    case Send(msg) =>
      SendUntested(s, msg, now);
      SendAsIs(s, msg, now);
      QuietSyncs(s, SendMessage(s, msg, now));
    case Replay(msg) =>
      ReplayUntested(s1, msg);
      QuietSyncs(s, ReplayMessage(s1, msg));
    case ReplayComplete =>
      CompleteSyncs(s1);
      SameSyncs(s, s1, CompleteReplay(s1), s.replay.Some? && s.closing.None? && CompleteReplay(s1).outcome != Close);
    case Disconnect =>
      LogoutUntested(s, now);
      QuietSyncs(s, RequestLogout(s, DISCONNECT_REQUESTED, now));
  }

  lemma {:induction false} SameSyncs(s: SessionView, s1: SessionView, r: Step, synced: bool)
    requires Syncs(s1, r, synced) && s1 == s.(timers := s1.timers)
    ensures Syncs(s, r, synced)
  {
  }

  lemma {:induction false} LogoutUntested(s: SessionView, now: nat)
    ensures AllUntested(RequestLogout(s, DISCONNECT_REQUESTED, now).out)
  {
  }

  lemma {:induction false} SendAsIs(s: SessionView, msg: Message, now: nat)
    ensures var r := SendMessage(s, msg, now);
            r.s.testRequestSeq == s.testRequestSeq && r.s.recoveryTrId == s.recoveryTrId
  {
  }

  // ---------------------------------------------------------------------
  // Our own: what is made of the answers
  // ---------------------------------------------------------------------

  function RecoveryOf(o: Output): seq<bool> {
    if o.Raise? && o.event.RecoveryCompleted? then [true] else []
  }

  /** A Heartbeat that carries this identifier. */
  predicate Echoes(msg: Message, id: Option<TestReqId>) {
    msg.msgType.Heartbeat? && msg.testReqId.Some? && msg.testReqId == id
  }

  lemma {:induction false} RecoveryInward()
    ensures Inward(RecoveryOf)
  {
  }

  lemma {:induction false} PromptRecovers(s: SessionView, msg: Message, now: nat)
    ensures Picked(Prompted(s, msg, now).out, RecoveryOf) == if Echoes(msg, s.recoveryTrId) then [true] else []
    ensures Prompted(s, msg, now).s.recoveryTrId == if Echoes(msg, s.recoveryTrId) then None else s.recoveryTrId
  {
    hide Picked;
    PickedOne(Prompted(s, msg, now).out, RecoveryOf);
  }

  predicate InSequence(s: SessionView, msg: Message) {
    StandsFor(msg).Some? && StandsFor(msg).value.First() == s.nextIn
  }

  lemma {:induction false} HeardRecovers(s: SessionView, msg: Message, now: nat)
    ensures HeardPicked(s, msg, now, RecoveryOf)
            == if InSequence(s, msg) && Echoes(msg, s.recoveryTrId) then [true] else []
  {
    UnplaceableStands(msg);
    hide StandsFor, Picked;
    PickedOne(OpenReplay(s, msg).out, RecoveryOf);
    if InSequence(s, msg) {
      PromptRecovers(Advanced(s, msg), msg, now);
      hide Prompted;
    }
  }

  /** The identifier waited for is given up exactly when it comes back. */
  lemma {:induction false} HandleRecovers(s: SessionView, msg: Message, now: nat)
    ensures HandleSessionMessage(s, msg, now).s.recoveryTrId
            == if InSequence(s, msg) && Echoes(msg, s.recoveryTrId) then None else s.recoveryTrId
  {
    UnplaceableStands(msg);
    hide StandsFor, HandleInSequence, HandleGap, Echoes;
    if InSequence(s, msg) {
      InSequenceRecovers(s, msg, now);
    } else if msg.seqNum.Some? {
      GapRecovers(s, msg, now);
      if msg.msgType.SequenceReset? ==> msg.newSeqNo.Some? {
        RejectedRecovers(s, msg, now);
      }
    }
  }

  lemma {:induction false} InSequenceRecovers(s: SessionView, msg: Message, now: nat)
    requires msg.seqNum.Some? && (msg.msgType.SequenceReset? ==> msg.newSeqNo.Some?) && NumberAfter(msg) > msg.seqNum.value
    ensures HandleInSequence(s, msg, now).s.recoveryTrId
            == if Echoes(msg, s.recoveryTrId) then None else s.recoveryTrId
  {
    hide Prompted;
    PromptRecovers(Advanced(s, msg), msg, now);
  }

  lemma {:induction false} RejectedRecovers(s: SessionView, msg: Message, now: nat)
    requires msg.seqNum.Some? && (msg.msgType.SequenceReset? ==> msg.newSeqNo.Some?)
    ensures NumberAfter(msg) <= msg.seqNum.value ==> HandleInSequence(s, msg, now).s == s
  {
    hide DispatchMessage;
  }

  lemma {:induction false} GapRecovers(s: SessionView, msg: Message, now: nat)
    requires msg.seqNum.Some?
    ensures HandleGap(s, msg, now).s.recoveryTrId == s.recoveryTrId
  {
    hide OpenReplay;
  }

  /** The identifier asked for last and not come back since, of the identifiers that ask whether a resend is over. */
  function PendingFrom(p: Option<TestReqId>, log: seq<Output>): Option<TestReqId> {
    if log == [] then p
    else
      var k := |log| - 1;
      if SyncOf(log[k]) != [] then Some(SyncOf(log[k])[0])
      else if RecoveryOf(log[k]) != [] then None
      else PendingFrom(p, log[..k])
  }

  lemma {:induction false} PendingAppend(p: Option<TestReqId>, a: seq<Output>, b: seq<Output>)
    ensures PendingFrom(p, a + b) == PendingFrom(PendingFrom(p, a), b)
    decreases |b|
  {
    if b == [] {
      assert a + b == a;
    } else {
      assert (a + b)[..|a + b| - 1] == a + b[..|b| - 1];
      PendingAppend(p, a, b[..|b| - 1]);
    }
  }

  /** Without a request to synchronise and without an echo, what was waited for is waited for. */
  lemma {:induction false} PendingIs(p: Option<TestReqId>, log: seq<Output>)
    requires Picked(log, SyncOf) == []
    ensures PendingFrom(p, log) == if Picked(log, RecoveryOf) == [] then p else None
    decreases |log|
  {
    if log != [] {
      PendingIs(p, log[..|log| - 1]);
    }
  }

  // ---------------------------------------------------------------------
  // One call
  // ---------------------------------------------------------------------

  lemma {:induction false} HandleUntested(s: SessionView, msg: Message, now: nat)
    ensures var r := HandleSessionMessage(s, msg, now);
            r.s.testRequestSeq == s.testRequestSeq && Picked(r.out, NumberIn) == [] && Picked(r.out, SyncOf) == []
  {
    hide HandleSessionMessage, Picked;
    HandleFrame(s, msg, now);
    NonePicked(HandleSessionMessage(s, msg, now).out, NumberIn);
    NonePicked(HandleSessionMessage(s, msg, now).out, SyncOf);
  }

  /** Whether a call asks whether a resend is over: after the peer's Logon, and after a replay. */
  predicate Synchronises(s: SessionView, input: Input)
    requires s.WellFormed()
  {
    var r := StepOf(s, input);
    match input
    case PeerLogon(_, _) => r.outcome == Continue && r.s.closing.None?
    case Apply(ReplayComplete, _) => s.replay.Some? && s.closing.None? && r.outcome != Close
    case _ => false
  }

  /** What a call asks of its own: the numbers it uses, whether it synchronises, what it waits for. */
  predicate Probes(s: SessionView, r: Step, synced: bool, echoed: bool) {
    && s.testRequestSeq <= r.s.testRequestSeq <= s.testRequestSeq + 1
    && Picked(r.out, NumberIn) == (if r.s.testRequestSeq == s.testRequestSeq then [] else [s.testRequestSeq + 1])
    && Picked(r.out, SyncOf) == (if synced then [Helo(s.testRequestSeq + 1)] else [])
    && Picked(r.out, RecoveryOf) == (if echoed then [true] else [])
    && r.s.recoveryTrId == PendingFrom(s.recoveryTrId, r.out)
  }

  /** An echo of what is waited for, used up in sequence. */
  predicate EchoTaken(s: SessionView, input: Input) {
    Heard(s, input).Some? && InSequence(s, Heard(s, input).value) && Echoes(Heard(s, input).value, s.recoveryTrId)
  }

  lemma {:induction false} StepRecovers(s: SessionView, input: Input)
    requires s.WellFormed()
    ensures Picked(StepOf(s, input).out, RecoveryOf) == if EchoTaken(s, input) then [true] else []
  {
    RecoveryInward();
    var now := if input.Receive? || input.PeerLogon? then input.now else 0;
    hide StepOf, Inward, HeardPicked, Picked, Echoes;
    StepPicked(s, input, now, RecoveryOf);
    if Heard(s, input).Some? {
      HeardRecovers(s, Heard(s, input).value, now);
    }
  }

  lemma {:induction false} StepProbes(s: SessionView, input: Input)
    requires s.WellFormed()
    ensures Probes(s, StepOf(s, input), Synchronises(s, input), EchoTaken(s, input))
  {
    StepRecovers(s, input);
    hide Probes, OnMessage, OnCommand, OnTimeout, Start, EchoTaken, Picked;
    match input
    case Receive(msg, now) => ReceiveProbes(s, msg, now);
    case PeerLogon(logon, now) => StartProbes(s, logon, now);
    case Apply(cmd, now) => CommandProbes(s, cmd, now);
    case Tick(now) => TickProbes(s, now);
    case AskLogon => NothingProbes(s, RequestLogon(s));
    case PeerClosed => NothingProbes(s, Step(s, [Raise(Disconnected)], Close));
  }

  lemma {:induction false} NothingProbes(s: SessionView, r: Step)
    requires r.s == s && AllUntested(r.out) && Picked(r.out, RecoveryOf) == []
    ensures Probes(s, r, false, false)
  {
    hide Picked, AllUntested;
    UntestedUnpicked(r.out);
    PendingIs(s.recoveryTrId, r.out);
  }

  lemma {:induction false} ReceiveProbes(s: SessionView, msg: Message, now: nat)
    requires Picked(OnMessage(s, msg, now).out, RecoveryOf) == if EchoTaken(s, Receive(msg, now)) then [true] else []
    ensures Probes(s, OnMessage(s, msg, now), false, EchoTaken(s, Receive(msg, now)))
  {
    hide Picked, HandleSessionMessage, StandsFor, Echoes, AllUntested;
    var s1 := s.(timers := s.timers.(nextIn := now + s.interval, missed := 0));
    var received, h := [Raise(RawMessageReceived(msg))], HandleSessionMessage(s1, msg, now);
    HandleUntested(s1, msg, now);
    HandleRecovers(s1, msg, now);
    RawUntested(msg);
    UntestedUnpicked(received);
    PickedAppend(received, h.out, NumberIn);
    PickedAppend(received, h.out, SyncOf);
    hide SyncOf, NumberIn;
    PendingIs(s.recoveryTrId, OnMessage(s, msg, now).out);
  }

  lemma {:induction false} RawUntested(msg: Message)
    ensures AllUntested([Raise(RawMessageReceived(msg))])
  {
  }

  lemma {:induction false} TickProbes(s: SessionView, now: nat)
    requires Picked(OnTimeout(s, now).out, RecoveryOf) == []
    ensures Probes(s, OnTimeout(s, now), false, false)
  {
    hide Picked, OnTimeout, SyncOf, NumberIn;
    TickAsks(s, now);
    PendingIs(s.recoveryTrId, OnTimeout(s, now).out);
  }

  lemma {:induction false} PendingSynced(p: Option<TestReqId>, log: seq<Output>, id: TestReqId)
    requires Picked(log, SyncOf) == [id] && Picked(log, RecoveryOf) == []
    ensures PendingFrom(p, log) == Some(id)
    decreases |log|
  {
    var k := |log| - 1;
    if SyncOf(log[k]) == [] {
      PendingSynced(p, log[..k], id);
    } else {
      assert Picked(log, SyncOf)[|Picked(log, SyncOf)| - 1] == SyncOf(log[k])[0];
    }
  }

  /** A call that may ask whether a resend is over. */
  lemma {:induction false} SyncProbes(s: SessionView, r: Step, synced: bool)
    requires Syncs(s, r, synced) && Picked(r.out, RecoveryOf) == []
    ensures Probes(s, r, synced, false)
  {
    hide Picked, SyncOf, NumberIn;
    if synced {
      PendingSynced(s.recoveryTrId, r.out, Helo(s.testRequestSeq + 1));
    } else {
      PendingIs(s.recoveryTrId, r.out);
    }
  }

  lemma {:induction false} CommandProbes(s: SessionView, cmd: Command, now: nat)
    requires s.WellFormed() && Picked(OnCommand(s, cmd, now).out, RecoveryOf) == []
    ensures var r := OnCommand(s, cmd, now);
            Probes(s, r, cmd.ReplayComplete? && s.replay.Some? && s.closing.None? && r.outcome != Close, false)
  {
    hide OnCommand, Syncs, Probes, Picked;
    CommandSyncs(s, cmd, now);
    var r := OnCommand(s, cmd, now);
    SyncProbes(s, r, cmd.ReplayComplete? && s.replay.Some? && s.closing.None? && r.outcome != Close);
  }

  lemma {:induction false} StartProbes(s: SessionView, logon: Message, now: nat)
    requires Picked(Start(s, logon, now).out, RecoveryOf) == if EchoTaken(s, PeerLogon(logon, now)) then [true] else []
    ensures var r := Start(s, logon, now);
            Probes(s, r, r.outcome == Continue && r.s.closing.None?, EchoTaken(s, PeerLogon(logon, now)))
  {
    hide Picked, HandleSessionMessage, StandsFor, Echoes, StartTail, SyncOf, NumberIn, RecoveryOf, PendingFrom;
    var h := HandleSessionMessage(s, logon, now);
    var tail := StartTail(h.s);
    HandleUntested(s, logon, now);
    HandlePends(s, logon, now);
    if h.outcome == Continue {
      TailSyncs(h.s);
      TailRecovers(h.s);
      hide Syncs;
      SyncProbes(h.s, tail, h.s.closing.None?);
      PickedAppend(h.out, tail.out, NumberIn);
      PickedAppend(h.out, tail.out, SyncOf);
      PendingAppend(s.recoveryTrId, h.out, tail.out);
    }
  }

  lemma {:induction false} TailRecovers(s: SessionView)
    ensures Picked(StartTail(s).out, RecoveryOf) == []
  {
    hide Picked;
    NonePicked(StartTail(s).out, RecoveryOf);
  }

  lemma {:induction false} HandlePends(s: SessionView, msg: Message, now: nat)
    ensures HandleSessionMessage(s, msg, now).s.recoveryTrId
            == PendingFrom(s.recoveryTrId, HandleSessionMessage(s, msg, now).out)
  {
    RecoveryInward();
    hide HandleSessionMessage, Picked, SyncOf, NumberIn, RecoveryOf, PendingFrom, InSequence, Echoes, HeardPicked, Inward;
    HandleUntested(s, msg, now);
    HandleRecovers(s, msg, now);
    HandlePicked(s, msg, now, RecoveryOf);
    HeardRecovers(s, msg, now);
    PendingIs(s.recoveryTrId, HandleSessionMessage(s, msg, now).out);
  }

  // ---------------------------------------------------------------------
  // Whole runs
  // ---------------------------------------------------------------------

  /** The echoes a run brings: a Heartbeat in sequence with the identifier asked for last and not yet come back. */
  function EchoesTaken(s: SessionView, inputs: seq<Input>): seq<bool>
    requires s.WellFormed()
  {
    if inputs == [] then []
    else
      var before, last := inputs[..|inputs| - 1], inputs[|inputs| - 1];
      var taken := TakenBy(After(s, before), last);
      EchoesTaken(s, before)
      + if taken != [] && Echoes(taken[0], PendingFrom(None, Log(s, before))) then [true] else []
  }

  lemma {:induction false} TakenEcho(s: SessionView, input: Input)
    ensures EchoTaken(s, input) <==> TakenBy(s, input) != [] && Echoes(TakenBy(s, input)[0], s.recoveryTrId)
  {
    hide Echoes, StandsFor, Heard;
  }

  /**
   * Over any run, recovery is reported complete once for each Heartbeat used up in sequence that carries
   * the identifier our last Test Request to synchronise asked for, if it had not come back before; and at
   * no other time.
   */
  lemma {:induction false} RecoveredOnEcho(interval: nat, nextIn: nat, now: nat, inputs: seq<Input>)
    ensures var s := Initial(interval, nextIn, now);
            && Picked(Log(s, inputs), RecoveryOf) == EchoesTaken(s, inputs)
            && After(s, inputs).recoveryTrId == PendingFrom(None, Log(s, inputs))
  {
    if inputs != [] {
      hide StepOf, TakenBy, Picked, EchoTaken, Echoes, SyncOf, RecoveryOf, NumberIn, PendingFrom, Synchronises;
      var s, before, last := Initial(interval, nextIn, now), inputs[..|inputs| - 1], inputs[|inputs| - 1];
      var mid := After(s, before);
      RecoveredOnEcho(interval, nextIn, now, before);
      StepProbes(mid, last);
      TakenEcho(mid, last);
      PickedAppend(Log(s, before), StepOf(mid, last).out, RecoveryOf);
      PendingAppend(None, Log(s, before), StepOf(mid, last).out);
    } else {
      PickedOne([], RecoveryOf);
    }
  }

  /** How often a run synchronises. */
  function Synchronisations(s: SessionView, inputs: seq<Input>): nat
    requires s.WellFormed()
  {
    if inputs == [] then 0
    else
      var before, last := inputs[..|inputs| - 1], inputs[|inputs| - 1];
      Synchronisations(s, before) + if Synchronises(After(s, before), last) then 1 else 0
  }

  /** One, two, three and so on. */
  predicate Counting(numbers: seq<nat>) {
    forall i :: 0 <= i < |numbers| ==> numbers[i] == i + 1
  }

  lemma {:induction false} CountingOn(numbers: seq<nat>, more: seq<nat>)
    requires Counting(numbers) && (more == [] || more == [|numbers| + 1])
    ensures Counting(numbers + more)
  {
  }

  lemma {:induction false} StepNumbers(s: SessionView, input: Input)
    requires s.WellFormed()
    ensures var r := StepOf(s, input);
            var numbers, syncs := Picked(r.out, NumberIn), Picked(r.out, SyncOf);
            && (numbers == [] || numbers == [s.testRequestSeq + 1])
            && r.s.testRequestSeq == s.testRequestSeq + |numbers|
            && |syncs| == if Synchronises(s, input) then 1 else 0
  {
    hide StepOf, Picked, EchoTaken, SyncOf, RecoveryOf, NumberIn, PendingFrom, Synchronises;
    StepProbes(s, input);
  }

  /**
   * Over any run, the Test Requests asked for are numbered 1, 2, 3 and so on, so no identifier is used
   * twice.
   */
  lemma {:induction false} ProbesAreNumbered(interval: nat, nextIn: nat, now: nat, inputs: seq<Input>)
    ensures var s := Initial(interval, nextIn, now);
            var numbers := Picked(Log(s, inputs), NumberIn);
            Counting(numbers) && |numbers| == After(s, inputs).testRequestSeq
  {
    hide StepOf, Picked, NumberIn, Counting;
    if inputs != [] {
      var s, before, last := Initial(interval, nextIn, now), inputs[..|inputs| - 1], inputs[|inputs| - 1];
      var mid := After(s, before);
      ProbesAreNumbered(interval, nextIn, now, before);
      StepNumbers(mid, last);
      PickedAppend(Log(s, before), StepOf(mid, last).out, NumberIn);
      CountingOn(Picked(Log(s, before), NumberIn), Picked(StepOf(mid, last).out, NumberIn));
    } else {
      PickedOne([], NumberIn);
      CountingNone();
    }
  }

  lemma {:induction false} CountingNone()
    ensures Counting([])
  {
  }

  /**
   * Over any run, one Test Request asks whether a resend is over after each Logon of the peer's and each
   * replay that leave the session going, and at no other time.
   */
  lemma {:induction false} SynchronisedWhen(s: SessionView, inputs: seq<Input>)
    requires s.WellFormed()
    ensures |Picked(Log(s, inputs), SyncOf)| == Synchronisations(s, inputs)
  {
    hide StepOf, Picked, SyncOf, Synchronises;
    if inputs != [] {
      var before, last := inputs[..|inputs| - 1], inputs[|inputs| - 1];
      var mid := After(s, before);
      SynchronisedWhen(s, before);
      StepNumbers(mid, last);
      PickedAppend(Log(s, before), StepOf(mid, last).out, SyncOf);
    } else {
      PickedOne([], SyncOf);
    }
  }
}
