/**
 * A session with its sequencer in front of it (sequencer.rs:342-399, 442-535 and
 * session/state.rs:422-524): what the sequencer releases the session accepts, and what the session
 * delivers the sequencer accounts for.
 */
module Composed {
  import opened FixMessage
  import opened Replaying
  import opened Session
  import opened SessionRuns
  import opened Inbound
  import opened Sequencing
  import opened SequencerRuns

  datatype Node = Node(q: SeqView, s: SessionView)

  datatype NodeInput =
    | OnSession(input: Input, clock: nat)
    | HandOne(now: nat, clock: nat)
    | OnSequencer(action: Action)

  ghost function NodeStepOf(n: Node, i: NodeInput): (r: NodeStep)
    requires n.s.WellFormed()
    ensures r.s.WellFormed()
  {
    match i
    case OnSession(input, clock) =>
      var st := StepOf(n.s, input);
      var a := PassOn(n.q, st.out, clock);
      NodeStep(a.q, st.s, st.out, a.out, if a.ok then st.outcome else Fail)
    case HandOne(now, clock) =>
      if CanPop(n.q) then HandOver(n.q, n.s, now, clock) else NodeStep(n.q, n.s, [], [], Continue)
    case OnSequencer(action) =>
      var a := Act(n.q, action);
      NodeStep(a.q, n.s, [], a.out, if a.ok then Continue else Fail)
  }

  ghost function NodeAfter(n: Node, inputs: seq<NodeInput>): (r: Node)
    requires n.s.WellFormed()
    ensures r.s.WellFormed()
  {
    if inputs == [] then n
    else
      var r := NodeStepOf(NodeAfter(n, inputs[..|inputs| - 1]), inputs[|inputs| - 1]);
      Node(r.q, r.s)
  }

  function InitialNode(resume: Resume, policy: InboundPolicy, max: nat, interval: nat, now: nat): Node {
    Node(InitialSequencer(resume, policy, max), Initial(interval, resume.nextIn, now))
  }

  // ---------------------------------------------------------------------
  // Counting Logons
  // ---------------------------------------------------------------------

  function Logons(msgs: seq<Message>): nat {
    if msgs == [] then 0 else (if msgs[0].msgType.Logon? then 1 else 0) + Logons(msgs[1..])
  }

  lemma {:induction false} LogonsAppend(a: seq<Message>, b: seq<Message>)
    ensures Logons(a + b) == Logons(a) + Logons(b)
  {
    if a == [] {
      assert a + b == b;
    } else {
      assert (a + b)[1..] == a[1..] + b;
      LogonsAppend(a[1..], b);
    }
  }

  lemma {:induction false} LogonsOne(msg: Message)
    ensures Logons([msg]) == if msg.msgType.Logon? then 1 else 0
  {
    assert [msg][1..] == [];
  }

  /** Logons the sequencer holds. */
  function HeldLogons(q: SeqView): nat {
    Logons(q.ready) + Logons(Messages(q.inFlight))
  }

  /** Logons the session holds back or has sent. */
  function SessionLogons(s: SessionView): nat {
    (if s.logonSent then 1 else 0) + if s.replay.Some? then Logons(s.replay.value.queue) else 0
  }

  // ---------------------------------------------------------------------
  // The session's side
  // ---------------------------------------------------------------------

  /** Nothing sent, replayed or held back is numbered beyond what was accepted. */
  ghost predicate Bounded(s: SessionView) {
    && s.WellFormed()
    && s.highestSent <= s.highestAccepted
    && (s.replay.Some? ==>
          && s.replay.value.endSeqNo <= s.highestAccepted
          && forall i :: 0 <= i < |s.replay.value.queue| ==> s.replay.value.queue[i].seqNum.value <= s.highestAccepted)
  }

  /** Outputs that say no more than the state does: `LoggedOn` only once both Logons are exchanged. */
  ghost predicate Modest(out: seq<Output>, s: SessionView) {
    forall i :: 0 <= i < |out| && out[i].Raise? ==>
      && (out[i].event.LoggedOn? ==> s.logonSent && s.peerLogonReceived)
      && (out[i].event.AdminSendRequired? ==> !out[i].event.msg.msgType.Logon?)
  }

  /** A call that accepts nothing for sending. */
  ghost predicate Tame(s: SessionView, r: Step) {
    && Bounded(r.s)
    && r.s.highestAccepted == s.highestAccepted && r.s.interval == s.interval
    && (s.logonSent ==> r.s.logonSent) && (s.peerLogonReceived ==> r.s.peerLogonReceived)
    && SessionLogons(r.s) <= SessionLogons(s)
    && Modest(r.out, r.s)
  }

  lemma {:induction false} TameThen(s: SessionView, r: Step, r': Step, outcome: Outcome)
    requires Tame(s, r) && Tame(r.s, r')
    ensures Tame(s, Step(r'.s, r.out + r'.out, outcome))
  {
  }

  /** A call that leaves the sending side as it was. */
  lemma {:induction false} StillTame(s: SessionView, r: Step)
    requires Bounded(s)
    requires r.s.highestSent == s.highestSent && r.s.highestAccepted == s.highestAccepted && r.s.replay == s.replay
    requires r.s.logonSent == s.logonSent && r.s.peerLogonReceived == s.peerLogonReceived && r.s.interval == s.interval
    requires Modest(r.out, r.s)
    ensures Tame(s, r)
  {
  }

  /** The peer asks only for what has been sent. */
  predicate AsksOnlyForSent(s: SessionView, msg: Message) {
    msg.msgType.ResendRequest? && msg.endSeqNo.Some? ==> msg.endSeqNo.value <= s.highestSent
  }

  lemma {:induction false} OpenTame(s: SessionView, msg: Message)
    requires Bounded(s) && msg.msgType.ResendRequest? && AsksOnlyForSent(s, msg)
    ensures Tame(s, OpenReplay(s, msg))
  {
  }

  lemma {:induction false} PromptTame(s: SessionView, msg: Message, now: nat)
    requires Bounded(s) && AsksOnlyForSent(s, msg)
    ensures Tame(s, Prompted(s, msg, now))
  {
    hide Bounded, OpenReplay, Tame;
    if msg.msgType.ResendRequest? {
      OpenTame(s, msg);
    } else {
      StillTame(s, Prompted(s, msg, now));
    }
  }

  lemma {:induction false} DispatchTame(s: SessionView, msg: Message, inSequence: bool, now: nat)
    requires Bounded(s) && AsksOnlyForSent(s, msg) && msg.seqNum.Some?
    ensures Tame(s, DispatchMessage(s, msg, inSequence, now))
  {
    hide Bounded, Prompted, Tame;
    var p := Prompted(s, msg, now);
    PromptTame(s, msg, now);
    StillTame(s, Step(s, [Raise(MessageReceived(msg.seqNum.value, msg))], Continue));
    TameBounds(s, p);
    var advanced := Step(p.s, [Raise(InboundAdvanced(s.nextIn))], Continue);
    StillTame(p.s, advanced);
    TameThen(s, p, advanced, Continue);
  }

  lemma {:induction false} TameBounds(s: SessionView, r: Step)
    requires Tame(s, r)
    ensures Bounded(r.s)
  {
  }

  lemma {:induction false} LogoutTame(s: SessionView, text: string, now: nat)
    requires Bounded(s)
    ensures Tame(s, RequestLogout(s, text, now))
  {
    StillTame(s, RequestLogout(s, text, now));
  }

  lemma {:induction false} InSequenceTame(s: SessionView, msg: Message, now: nat)
    requires Bounded(s) && AsksOnlyForSent(s, msg) && msg.seqNum.Some?
    requires msg.msgType.SequenceReset? ==> msg.newSeqNo.Some?
    ensures Tame(s, HandleInSequence(s, msg, now))
  {
    hide DispatchMessage, RequestLogout, Tame;
    StillTame(s, Step(s, [], Fail));
    var s1 := Advanced(s, msg);
    StillTame(s, Step(s1, [], Continue));
    var d := DispatchMessage(s1, msg, true, now);
    DispatchTame(s1, msg, true, now);
    TameThen(s, Step(s1, [], Continue), d, d.outcome);
    assert [] + d.out == d.out;
    TameBounds(s1, d);
    LogoutTame(d.s, LOGOUT_RECEIVED, now);
    TameThen(s, d, RequestLogout(d.s, LOGOUT_RECEIVED, now), Continue);
  }

  lemma {:induction false} GapTame(s: SessionView, msg: Message, now: nat)
    requires Bounded(s) && AsksOnlyForSent(s, msg) && msg.seqNum.Some?
    ensures Tame(s, HandleGap(s, msg, now))
  {
    hide DispatchMessage, Tame;
    var ask := AskForGap(s, msg);
    StillTame(s, ask);
    StillTame(s, Step(ask.s.(peerLogoutPending := true), ask.out, Continue));
    var d := DispatchMessage(ask.s, msg, false, now);
    DispatchTame(ask.s, msg, false, now);
    TameThen(s, ask, d, d.outcome);
  }

  lemma {:induction false} HandleTame(s: SessionView, msg: Message, now: nat)
    requires Bounded(s) && AsksOnlyForSent(s, msg)
    ensures Tame(s, HandleSessionMessage(s, msg, now))
  {
    hide HandleInSequence, HandleGap, RequestLogout, Tame;
    StillTame(s, Step(s, [], Fail));
    LogoutTame(s, TOO_LOW, now);
    if msg.seqNum.Some? {
      GapTame(s, msg, now);
      if msg.msgType.SequenceReset? ==> msg.newSeqNo.Some? {
        InSequenceTame(s, msg, now);
      }
    }
  }

  lemma {:induction false} ReceiveTame(s: SessionView, msg: Message, now: nat)
    requires Bounded(s) && AsksOnlyForSent(s, msg)
    ensures Tame(s, OnMessage(s, msg, now))
  {
    hide HandleSessionMessage, Tame;
    var s1 := s.(timers := s.timers.(nextIn := now + s.interval, missed := 0));
    var received := Step(s1, [Raise(RawMessageReceived(msg))], Continue);
    StillTame(s, received);
    HandleTame(s1, msg, now);
    TameThen(s, received, HandleSessionMessage(s1, msg, now), HandleSessionMessage(s1, msg, now).outcome);
  }

  lemma {:induction false} StartTailTame(s: SessionView)
    requires Bounded(s)
    ensures Tame(s, StartTail(s))
  {
  }

  lemma {:induction false} StartTame(s: SessionView, logon: Message, now: nat)
    requires Bounded(s) && AsksOnlyForSent(s, logon)
    ensures Tame(s, Start(s, logon, now))
  {
    hide HandleSessionMessage, StartTail, Tame;
    var h := HandleSessionMessage(s, logon, now);
    HandleTame(s, logon, now);
    TameBounds(s, h);
    StartTailTame(h.s);
    TameThen(s, h, StartTail(h.s), Continue);
  }

  lemma {:induction false} RetransmissionTame(s: SessionView, msg: Message, gapFill: Option<Range>)
    requires Bounded(s) && msg.seqNum.Some? && msg.seqNum.value <= s.highestAccepted
    requires gapFill.Some? ==> gapFill.value.first <= s.highestAccepted
    ensures Tame(s, Retransmission(s, msg, gapFill))
  {
  }

  lemma {:induction false} ReplayTame(s: SessionView, msg: Message)
    requires Bounded(s)
    ensures Tame(s, ReplayMessage(s, msg))
  {
    hide Retransmission;
    if msg.seqNum.Some? && s.replay.Some? {
      var r, n := s.replay.value, msg.seqNum.value;
      var s1 := s.(replay := Some(OfferView(r, n, msg.GapFilledInReplay())));
      var step := OfferStep(r, n, msg.GapFilledInReplay());
      if step.Retransmit? {
        RetransmissionTame(s1, msg, step.gapFill);
      }
    }
  }

  /** Sending what was held back sends no Logon that was not held back. */
  lemma {:induction false} QueueTame(s: SessionView, queue: seq<Message>)
    requires Bounded(s) && s.replay.None?
    requires forall i :: 0 <= i < |queue| ==> queue[i].seqNum.Some? && queue[i].seqNum.value <= s.highestAccepted
    ensures var r := DispatchQueue(s, queue);
            && Bounded(r.s) && r.s.highestAccepted == s.highestAccepted && r.s.interval == s.interval
            && (s.logonSent ==> r.s.logonSent) && r.s.peerLogonReceived == s.peerLogonReceived
            && SessionLogons(r.s) <= SessionLogons(s) + Logons(queue)
            && Modest(r.out, r.s)
    decreases |queue|
  {
    if queue != [] {
      var first := DispatchOutbound(s, queue[0]);
      DispatchedModest(s, queue[0]);
      hide DispatchOutbound;
      if first.outcome != Close {
        QueueTame(first.s, queue[1..]);
      }
    }
  }

  lemma {:induction false} DispatchedModest(s: SessionView, msg: Message)
    requires Bounded(s) && s.replay.None? && msg.seqNum.Some? && msg.seqNum.value <= s.highestAccepted
    ensures var r := DispatchOutbound(s, msg);
            && Bounded(r.s) && Modest(r.out, r.s) && (s.logonSent ==> r.s.logonSent)
            && SessionLogons(r.s) <= SessionLogons(s) + if msg.msgType.Logon? then 1 else 0
  {
  }

  lemma {:induction false} FillTame(s: SessionView)
    requires Bounded(s) && s.replay.Some?
    ensures Tame(s, FillTrailing(s))
  {
  }

  lemma {:induction false} CompleteTame(s: SessionView)
    requires Bounded(s)
    ensures Tame(s, CompleteReplay(s))
  {
    if s.replay.Some? {
      hide DispatchQueue, FillTrailing, RequestSyncTestRequest;
      var fill := FillTrailing(s);
      FillTame(s);
      FillKeepsReplay(s);
      var closed, held := fill.s.(replay := None), s.replay.value.queue;
      QueueTame(closed, held);
      var queue := DispatchQueue(closed, held);
      var sent := Step(queue.s, fill.out + queue.out, queue.outcome);
      assert Tame(s, sent);
      SyncTame(queue.s);
      TameThen(s, sent, RequestSyncTestRequest(queue.s), Continue);
    }
  }

  lemma {:induction false} FillKeepsReplay(s: SessionView)
    requires s.WellFormed() && s.replay.Some?
    ensures FillTrailing(s).s.replay == s.replay && FillTrailing(s).s.logonSent == s.logonSent
  {
  }

  lemma {:induction false} SyncTame(s: SessionView)
    requires Bounded(s)
    ensures Tame(s, RequestSyncTestRequest(s))
  {
  }

  lemma {:induction false} TickTame(s: SessionView, now: nat)
    requires Bounded(s)
    ensures Tame(s, OnTimeout(s, now))
  {
    StillTame(s, OnTimeout(s, now));
  }

  /** An input to the session alone: no message to send, and no request for what was never sent. */
  predicate FairInput(s: SessionView, input: Input) {
    match input
    case Receive(msg, _) => AsksOnlyForSent(s, msg)
    case PeerLogon(logon, _) => logon.msgType.Logon?
    case Apply(cmd, _) => !cmd.Send?
    case _ => true
  }

  lemma {:induction false} CommandTame(s: SessionView, cmd: Command, now: nat)
    requires Bounded(s) && !cmd.Send?
    ensures Tame(s, OnCommand(s, cmd, now))
  {
    assert s.WellFormed();
    hide CompleteReplay, ReplayMessage, RequestLogout, Bounded, Tame;
    var s1 := s.(timers := s.timers.(nextOut := now + s.interval));
    TimersUnbounded(s, s1);
    match cmd {
      case Replay(msg) =>
        ReplayTame(s1, msg);
        TameAlso(s, s1, ReplayMessage(s1, msg));
      case ReplayComplete =>
        CompleteTame(s1);
        TameAlso(s, s1, CompleteReplay(s1));
      case Disconnect =>
        LogoutTame(s, DISCONNECT_REQUESTED, now);
    }
  }

  lemma {:induction false} StepTame(s: SessionView, input: Input)
    requires Bounded(s) && FairInput(s, input) && !input.AskLogon?
    ensures Tame(s, StepOf(s, input))
  {
    assert s.WellFormed();
    hide OnMessage, OnTimeout, Start, OnCommand, Bounded, Tame;
    match input {
      case Receive(msg, now) => ReceiveTame(s, msg, now);
      case PeerLogon(logon, now) => StartTame(s, logon, now);
      case Tick(now) => TickTame(s, now);
      case PeerClosed => StillTame(s, Step(s, [Raise(Disconnected)], Close));
      case Apply(cmd, now) => CommandTame(s, cmd, now);
    }
  }

  lemma {:induction false} TimersUnbounded(s: SessionView, s1: SessionView)
    requires Bounded(s) && s1 == s.(timers := s1.timers)
    ensures Bounded(s1) && s1.WellFormed()
  {
  }

  lemma {:induction false} TameAlso(s: SessionView, s1: SessionView, r: Step)
    requires Tame(s1, r) && s1 == s.(timers := s1.timers)
    ensures Tame(s, r)
  {
  }

  // ---------------------------------------------------------------------
  // The sequencer's side
  // ---------------------------------------------------------------------

  /** Everything held is in order, beyond what the session has accepted. */
  ghost predicate Queued(q: SeqView, accepted: nat) {
    && Labelled(q)
    && StrictlyIncreasing(Held(q))
    && (forall i :: 0 <= i < |Held(q)| ==> accepted < Held(q)[i] < q.nextOut)
    && accepted < q.nextOut
  }

  /** Any Logon held is the session's own. */
  ghost predicate OwnLogons(q: SeqView, interval: nat) {
    && (forall i :: 0 <= i < |q.ready| ==> q.ready[i].msgType.Logon? ==> q.ready[i].heartBtInt == Some(interval))
    && (forall i :: 0 <= i < |q.inFlight| ==>
          q.inFlight[i].msg.msgType.Logon? ==> q.inFlight[i].msg.heartBtInt == Some(interval))
  }

  lemma {:induction false} WriteQueued(q: SeqView, accepted: nat, q': SeqView, n: nat, msg: Message)
    requires Queued(q, accepted) && n >= q.nextOut && msg.seqNum == Some(n)
    requires q'.inFlight == q.inFlight + [InFlight(n, msg, false)] && q'.ready == q.ready && q'.nextOut == n + 1
    ensures Queued(q', accepted)
  {
    assert Held(q') == Held(q) + [n];
  }

  lemma {:induction false} WriteLogons(q: SeqView, q': SeqView, n: nat, msg: Message)
    requires q'.inFlight == q.inFlight + [InFlight(n, msg, false)] && q'.ready == q.ready
    ensures HeldLogons(q') == HeldLogons(q) + if msg.msgType.Logon? then 1 else 0
  {
    assert Messages(q'.inFlight) == Messages(q.inFlight) + [msg];
    LogonsAppend(Messages(q.inFlight), [msg]);
    LogonsOne(msg);
  }

  /** Marking a write complete changes no message and no number. */
  lemma {:induction false} MarkedQueued(q: SeqView, accepted: nat, interval: nat, i: nat)
    requires Queued(q, accepted) && OwnLogons(q, interval) && i < |q.inFlight|
    ensures var q' := q.(inFlight := q.inFlight[i := q.inFlight[i].(persisted := true)]);
            Queued(q', accepted) && OwnLogons(q', interval) && HeldLogons(q') == HeldLogons(q)
  {
    var marked := q.inFlight[i := q.inFlight[i].(persisted := true)];
    assert Messages(marked) == Messages(q.inFlight);
    assert FlightNumbers(marked) == FlightNumbers(q.inFlight);
  }

  lemma {:induction false} DrainedLogons(q: SeqView, interval: nat, k: nat)
    requires OwnLogons(q, interval) && k <= |q.inFlight|
    ensures var q' := q.(inFlight := q.inFlight[k..], ready := q.ready + Messages(q.inFlight[..k]));
            OwnLogons(q', interval) && HeldLogons(q') == HeldLogons(q)
  {
    LogonsMove(q.ready, q.inFlight, k);
    hide Logons;
  }

  lemma {:induction false} LogonsMove(ready: seq<Message>, inFlight: seq<InFlight>, k: nat)
    requires k <= |inFlight|
    ensures Logons(ready + Messages(inFlight[..k])) + Logons(Messages(inFlight[k..]))
            == Logons(ready) + Logons(Messages(inFlight))
  {
    hide Logons;
    var moved, left := Messages(inFlight[..k]), Messages(inFlight[k..]);
    assert Messages(inFlight) == moved + left;
    LogonsAppend(moved, left);
    LogonsAppend(ready, moved);
  }

  lemma {:induction false} DrainedQueued(q: SeqView, accepted: nat, k: nat)
    requires Queued(q, accepted) && k <= |q.inFlight|
    ensures Queued(q.(inFlight := q.inFlight[k..], ready := q.ready + Messages(q.inFlight[..k])), accepted)
  {
    DrainOrder(q.ready, q.inFlight, k);
    hide ReadyNumbers, FlightNumbers, Messages;
  }

  lemma {:induction false} WrittenQueued(q: SeqView, accepted: nat, interval: nat, n: nat)
    requires Queued(q, accepted) && OwnLogons(q, interval)
    ensures Queued(Written(q, n).q, accepted) && OwnLogons(Written(q, n).q, interval)
    ensures HeldLogons(Written(q, n).q) == HeldLogons(q)
  {
    hide Queued, OwnLogons, HeldLogons;
    if Written(q, n).ok {
      var i := Find(q.inFlight, n);
      var q1 := q.(inFlight := q.inFlight[i := q.inFlight[i].(persisted := true)]);
      MarkedQueued(q, accepted, interval, i);
      DrainedQueued(q1, accepted, DoneCount(q1.inFlight));
      DrainedLogons(q1, interval, DoneCount(q1.inFlight));
    }
  }

  /** An action that leaves what is held alone. */
  lemma {:induction false} SameQueued(q: SeqView, accepted: nat, interval: nat, q': SeqView)
    requires Queued(q, accepted) && OwnLogons(q, interval)
    requires q'.ready == q.ready && q'.inFlight == q.inFlight && q'.nextOut == q.nextOut
    ensures Queued(q', accepted) && OwnLogons(q', interval) && HeldLogons(q') == HeldLogons(q)
  {
  }

  // ---------------------------------------------------------------------
  // Together
  // ---------------------------------------------------------------------

  /** `asked` is whether our Logon has been asked for yet. */
  ghost predicate Harmony(n: Node, asked: bool) {
    && Bounded(n.s)
    && Queued(n.q, n.s.highestAccepted)
    && OwnLogons(n.q, n.s.interval)
    && HeldLogons(n.q) + SessionLogons(n.s) <= (if asked then 1 else 0)
    && (n.q.loggedOn ==> n.s.logonSent && n.s.peerLogonReceived)
  }

  /** Taking in modest events: what is held grows in order, with no Logon. */
  lemma {:induction false} PassOnQueued(q: SeqView, s: SessionView, log: seq<Output>, clock: nat)
    requires Queued(q, s.highestAccepted) && OwnLogons(q, s.interval) && Modest(log, s)
    requires q.loggedOn ==> s.logonSent && s.peerLogonReceived
    ensures var r := PassOn(q, log, clock);
            && Queued(r.q, s.highestAccepted) && OwnLogons(r.q, s.interval)
            && HeldLogons(r.q) == HeldLogons(q)
            && (r.q.loggedOn ==> s.logonSent && s.peerLogonReceived)
    decreases |log|
  {
    hide Queued, OwnLogons, HeldLogons, OnSessionEvent;
    if log != [] {
      assert Modest(log[1..], s);
      if log[0].Transmit? {
        PassOnQueued(q, s, log[1..], clock);
      } else {
        EventQueued(q, s, log[0].event, clock);
        var first := OnSessionEvent(q, log[0].event, clock);
        if first.ok {
          PassOnQueued(first.q, s, log[1..], clock);
        }
      }
    }
  }

  lemma {:induction false} EventQueued(q: SeqView, s: SessionView, event: Event, clock: nat)
    requires Queued(q, s.highestAccepted) && OwnLogons(q, s.interval)
    requires event.LoggedOn? ==> s.logonSent && s.peerLogonReceived
    requires event.AdminSendRequired? ==> !event.msg.msgType.Logon?
    requires q.loggedOn ==> s.logonSent && s.peerLogonReceived
    ensures var r := OnSessionEvent(q, event, clock);
            && Queued(r.q, s.highestAccepted) && OwnLogons(r.q, s.interval)
            && HeldLogons(r.q) == HeldLogons(q)
            && (r.q.loggedOn ==> s.logonSent && s.peerLogonReceived)
  {
    hide Queued, HeldLogons, Watermark;
    var r := OnSessionEvent(q, event, clock);
    if event.AdminSendRequired? {
      AssignQueued(q, s, event.msg, clock);
    } else {
      SameQueued(q, s.highestAccepted, s.interval, r.q);
    }
  }

  lemma {:induction false} AssignQueued(q: SeqView, s: SessionView, msg: Message, clock: nat)
    requires Queued(q, s.highestAccepted) && OwnLogons(q, s.interval)
    requires msg.msgType.Logon? ==> msg.heartBtInt == Some(s.interval)
    ensures var r := Assign(q, msg, clock);
            && Queued(r.q, s.highestAccepted) && OwnLogons(r.q, s.interval)
            && HeldLogons(r.q) <= HeldLogons(q) + (if msg.msgType.Logon? then 1 else 0)
            && (!msg.msgType.Logon? ==> HeldLogons(r.q) == HeldLogons(q))
  {
    hide HeldLogons;
    if !q.failed {
      var stamped := Stamp(msg.(seqNum := Some(q.nextOut)), clock);
      WriteQueued(q, s.highestAccepted, Assign(q, msg, clock).q, q.nextOut, stamped);
      WriteLogons(q, Assign(q, msg, clock).q, q.nextOut, stamped);
    }
  }

  /** A message at the head of the queue that may go is one the session accepts. */
  lemma {:induction false} HeadAccepted(n: Node, asked: bool)
    requires Harmony(n, asked) && CanPop(n.q)
    ensures !Refused(n.s, n.q.ready[0])
  {
    var msg := n.q.ready[0];
    assert Held(n.q)[0] == msg.seqNum.value;
    if msg.msgType.Logon? {
      assert Logons(n.q.ready) >= 1;
    }
  }

  lemma {:induction false} PopQueued(q: SeqView, accepted: nat)
    requires Queued(q, accepted) && q.ready != []
    ensures q.ready[0].seqNum.Some? && Queued(q.(ready := q.ready[1..]), q.ready[0].seqNum.value)
  {
    HandMoves(q);
    ReadyNumbered(q);
    hide Held, Labelled;
    var q' := q.(ready := q.ready[1..]);
    assert forall i :: 0 <= i < |Held(q')| ==> Held(q')[i] == Held(q)[i + 1];
    assert Held(q)[0] == q.ready[0].seqNum.value;
  }

  lemma {:induction false} ReadyNumbered(q: SeqView)
    requires Labelled(q) && q.ready != []
    ensures q.ready[0].seqNum.Some?
  {
  }

  /** Accepting a message for sending: it is held back or on the wire, and counts as a Logon if it is one. */
  lemma {:induction false} SendModest(s: SessionView, msg: Message, now: nat)
    requires Bounded(s) && !Refused(s, msg)
    ensures var r := SendMessage(s, msg, now);
            && r.outcome != Fail
            && Bounded(r.s) && r.s.highestAccepted == msg.seqNum.value && r.s.interval == s.interval
            && (s.logonSent ==> r.s.logonSent) && r.s.peerLogonReceived == s.peerLogonReceived
            && SessionLogons(r.s) <= SessionLogons(s) + (if msg.msgType.Logon? then 1 else 0)
            && Modest(r.out, r.s)
  {
    var timers := if msg.IsAdmin() then s.timers else s.timers.(nextOut := now + s.interval);
    var s1 := s.(highestAccepted := msg.seqNum.value, timers := timers);
    if s.replay.Some? {
      LogonsAppend(s.replay.value.queue, [msg]);
      LogonsOne(msg);
    } else {
      hide DispatchOutbound;
      DispatchedModest(s1, msg);
    }
  }

  lemma {:induction false} HandKeepsHarmony(n: Node, asked: bool, now: nat, clock: nat)
    requires Harmony(n, asked) && CanPop(n.q)
    ensures var r := HandOver(n.q, n.s, now, clock);
            Harmony(Node(r.q, r.s), asked)
  {
    var q1, msg := n.q.(ready := n.q.ready[1..]), n.q.ready[0];
    HeadAccepted(n, asked);
    SendModest(n.s, msg, now);
    PopQueued(n.q, n.s.highestAccepted);
    hide SendMessage, PassOn, Queued, Bounded, Refused;
    assert OwnLogons(q1, n.s.interval);
    assert HeldLogons(n.q) == HeldLogons(q1) + if msg.msgType.Logon? then 1 else 0;
    var st := SendMessage(n.s, msg, now);
    PassOnQueued(q1, st.s, st.out, clock);
  }

  lemma {:induction false} SessionKeepsHarmony(n: Node, asked: bool, input: Input, clock: nat)
    requires Harmony(n, asked) && FairInput(n.s, input) && !input.AskLogon?
    ensures var r := NodeStepOf(n, OnSession(input, clock));
            Harmony(Node(r.q, r.s), asked)
  {
    StepTame(n.s, input);
    hide StepOf, PassOn, Queued, Bounded;
    PassOnQueued(n.q, StepOf(n.s, input).s, StepOf(n.s, input).out, clock);
  }

  lemma {:induction false} LogonKeepsHarmony(n: Node, clock: nat)
    requires Harmony(n, false)
    ensures var r := NodeStepOf(n, OnSession(AskLogon, clock));
            Harmony(Node(r.q, r.s), true)
  {
    var msg := LogonMessage(n.s.interval);
    var log := [Raise(AdminSendRequired(msg))];
    AssignQueued(n.q, n.s, msg, clock);
    assert log[1..] == [];
    PassOnNothing(Assign(n.q, msg, clock).q, clock);
    assert PassOn(n.q, log, clock).q == Assign(n.q, msg, clock).q;
    hide PassOn, Assign, Queued;
  }

  /** The application submits no Logon of its own. */
  predicate FairAction(a: Action) {
    match a
    case Submit(msg, _) => !msg.msgType.Logon?
    case SubmitRaw(msg, _) => !msg.msgType.Logon?
    case Hand => false
    case FromSession(_, _) => false
    case _ => true
  }

  lemma {:induction false} RawQueued(q: SeqView, s: SessionView, msg: Message, clock: nat)
    requires Queued(q, s.highestAccepted) && OwnLogons(q, s.interval) && !msg.msgType.Logon?
    ensures var r := SendRaw(q, msg, clock);
            && Queued(r.q, s.highestAccepted) && OwnLogons(r.q, s.interval) && HeldLogons(r.q) == HeldLogons(q)
  {
    hide HeldLogons;
    if SendRaw(q, msg, clock).ok {
      WriteQueued(q, s.highestAccepted, SendRaw(q, msg, clock).q, msg.seqNum.value, Stamp(msg, clock));
      WriteLogons(q, SendRaw(q, msg, clock).q, msg.seqNum.value, Stamp(msg, clock));
    }
  }

  lemma {:induction false} ActionKeepsHarmony(n: Node, asked: bool, a: Action)
    requires Harmony(n, asked) && FairAction(a)
    ensures Harmony(Node(Act(n.q, a).q, n.s), asked)
  {
    hide Queued, OwnLogons, HeldLogons, SessionLogons, Bounded, Written, Assign, SendRaw, Watermark;
    match a {
      case Submit(msg, clock) => AssignQueued(n.q, n.s, msg.(possDup := false, origSendingTime := None), clock);
      case SubmitRaw(msg, clock) =>
        RawQueued(n.q, n.s, msg, clock);
        RawKeepsLoggedOn(n.q, msg, clock);
      case WriteDone(k) => WrittenQueued(n.q, n.s.highestAccepted, n.s.interval, k);
      case WriteFailed => SameQueued(n.q, n.s.highestAccepted, n.s.interval, Act(n.q, a).q);
      case Finish(k) => SameQueued(n.q, n.s.highestAccepted, n.s.interval, Act(n.q, a).q);
      case WatermarkDone(w) => SameQueued(n.q, n.s.highestAccepted, n.s.interval, Act(n.q, a).q);
    }
  }

  lemma {:induction false} RawKeepsLoggedOn(q: SeqView, msg: Message, clock: nat)
    ensures SendRaw(q, msg, clock).q.loggedOn == q.loggedOn
  {
  }

  /** Our Logon is asked for at most once, and the application and the peer keep to their side. */
  ghost predicate Fair(n: Node, i: NodeInput, asked: bool) {
    match i
    case OnSession(input, _) => FairInput(n.s, input) && (input.AskLogon? ==> !asked)
    case OnSequencer(a) => FairAction(a)
    case HandOne(_, _) => true
  }

  predicate LogonAsked(inputs: seq<NodeInput>) {
    inputs != [] && (LogonAsked(inputs[..|inputs| - 1])
                     || (inputs[|inputs| - 1].OnSession? && inputs[|inputs| - 1].input.AskLogon?))
  }

  ghost predicate FairRun(n: Node, inputs: seq<NodeInput>)
    requires n.s.WellFormed()
  {
    inputs != [] ==>
      var before := inputs[..|inputs| - 1];
      FairRun(n, before) && Fair(NodeAfter(n, before), inputs[|inputs| - 1], LogonAsked(before))
  }

  lemma {:induction false} InputKeepsHarmony(n: Node, asked: bool, i: NodeInput)
    requires Harmony(n, asked) && Fair(n, i, asked)
    ensures var r := NodeStepOf(n, i);
            Harmony(Node(r.q, r.s), asked || (i.OnSession? && i.input.AskLogon?))
  {
    assert n.s.WellFormed();
    hide Harmony, HandOver, StepOf, Act;
    match i {
      case OnSession(input, clock) =>
        if input.AskLogon? {
          LogonKeepsHarmony(n, clock);
        } else {
          SessionKeepsHarmony(n, asked, input, clock);
        }
      case HandOne(now, clock) =>
        if CanPop(n.q) {
          HandKeepsHarmony(n, asked, now, clock);
        }
      case OnSequencer(a) => ActionKeepsHarmony(n, asked, a);
    }
  }

  /**
   * Over any run in which our Logon is asked for at most once, the application sends no Logon of
   * its own and the peer asks only for what was sent: every message the sequencer is ready to hand
   * over, the session accepts; and before both Logons have been exchanged it hands over only ours.
   */
  lemma {:induction false} ReleasedAreAccepted(resume: Resume, policy: InboundPolicy, max: nat, interval: nat, now: nat,
                                               inputs: seq<NodeInput>)
    requires resume.nextOut >= 1
    requires FairRun(InitialNode(resume, policy, max, interval, now), inputs)
    ensures var n := NodeAfter(InitialNode(resume, policy, max, interval, now), inputs);
            && Harmony(n, LogonAsked(inputs))
            && (CanPop(n.q) ==> !Refused(n.s, n.q.ready[0]))
            && (CanPop(n.q) && !(n.s.logonSent && n.s.peerLogonReceived) ==> n.q.ready[0].msgType.Logon?)
  {
    var start := InitialNode(resume, policy, max, interval, now);
    if inputs != [] {
      hide NodeStepOf, Harmony, Fair;
      var before, last := inputs[..|inputs| - 1], inputs[|inputs| - 1];
      ReleasedAreAccepted(resume, policy, max, interval, now, before);
      InputKeepsHarmony(NodeAfter(start, before), LogonAsked(before), last);
    }
    var n := NodeAfter(start, inputs);
    HarmonyReleases(n, LogonAsked(inputs));
  }

  lemma {:induction false} HarmonyReleases(n: Node, asked: bool)
    requires Harmony(n, asked)
    ensures CanPop(n.q) ==> !Refused(n.s, n.q.ready[0])
    ensures CanPop(n.q) && !(n.s.logonSent && n.s.peerLogonReceived) ==> n.q.ready[0].msgType.Logon?
  {
    if CanPop(n.q) {
      HeadAccepted(n, asked);
    }
  }

  // ---------------------------------------------------------------------
  // At least once, end to end
  // ---------------------------------------------------------------------

  /** The history of what the application was told and has handled, over one call's events. */
  ghost function PassedIn(h: InHistory, q: SeqView, log: seq<Output>, clock: nat): InHistory
    decreases |log|
  {
    if log == [] then h
    else if log[0].Transmit? then PassedIn(h, q, log[1..], clock)
    else
      var a := FromSession(log[0].event, clock);
      PassedIn(RecordIn(h, q, a), Act(q, a).q, log[1..], clock)
  }

  lemma {:induction false} HearCons(b: Option<Listener>, log: seq<Output>)
    requires log != []
    ensures HearAll(b, log) == HearAll(Hear(b, log[0]), log[1..])
  {
    assert log == [log[0]] + log[1..];
    HearAppend(b, [log[0]], log[1..]);
    HearOne(b, log[0]);
  }

  lemma {:induction false} HearNothing(log: seq<Output>)
    ensures HearAll(None, log) == None
  {
    if log != [] {
      HearNothing(log[..|log| - 1]);
    }
  }

  /** What the listener accepts, the sequencer takes in order. */
  lemma {:induction false} EventAligned(q: SeqView, h: InHistory, b: Listener, event: Event, clock: nat)
    requires InLedger(q, h) && q.sessionNextIn == b.next && Hear(Some(b), Raise(event)).Some?
    ensures var a := FromSession(event, clock);
            && InLedger(Act(q, a).q, RecordIn(h, q, a))
            && Act(q, a).q.sessionNextIn == Hear(Some(b), Raise(event)).value.next
  {
    InActKept(q, h, FromSession(event, clock));
    hide InLedger, Watermark;
  }

  lemma {:induction false} PassOnAligned(q: SeqView, h: InHistory, b: Listener, log: seq<Output>, clock: nat)
    requires InLedger(q, h) && q.sessionNextIn == b.next
    requires HearAll(Some(b), log).Some? && PassOn(q, log, clock).ok
    ensures InLedger(PassOn(q, log, clock).q, PassedIn(h, q, log, clock))
    ensures PassOn(q, log, clock).q.sessionNextIn == HearAll(Some(b), log).value.next
    decreases |log|
  {
    hide InLedger, OnSessionEvent, Hear, RecordIn;
    if log == [] {
      assert HearAll(Some(b), log) == Some(b);
    } else {
      HearCons(Some(b), log);
      HearNothing(log[1..]);
      var b1 := Hear(Some(b), log[0]);
      if log[0].Transmit? {
        HearTransmit(b, log[0]);
        PassOnAligned(q, h, b, log[1..], clock);
      } else {
        var a := FromSession(log[0].event, clock);
        EventAligned(q, h, b, log[0].event, clock);
        PassOnAligned(Act(q, a).q, RecordIn(h, q, a), b1.value, log[1..], clock);
      }
    }
  }

  lemma {:induction false} HearTransmit(b: Listener, o: Output)
    requires o.Transmit?
    ensures Hear(Some(b), o) == Some(b)
  {
  }

  /** What the session emitted in one step of the pair. */
  ghost function NodeOut(n: Node, i: NodeInput): seq<Output>
    requires n.s.WellFormed()
  {
    NodeStepOf(n, i).wire
  }

  ghost function NodeLog(n: Node, inputs: seq<NodeInput>): seq<Output>
    requires n.s.WellFormed()
  {
    if inputs == [] then []
    else
      var before := inputs[..|inputs| - 1];
      NodeLog(n, before) + NodeOut(NodeAfter(n, before), inputs[|inputs| - 1])
  }

  ghost function NodeRecord(h: InHistory, n: Node, i: NodeInput): InHistory
    requires n.s.WellFormed()
  {
    match i
    case OnSession(input, clock) => PassedIn(h, n.q, NodeOut(n, i), clock)
    case HandOne(_, clock) =>
      if CanPop(n.q) then PassedIn(h, n.q.(ready := n.q.ready[1..]), NodeOut(n, i), clock) else h
    case OnSequencer(a) => RecordIn(h, n.q, a)
  }

  ghost function NodeHistory(n: Node, inputs: seq<NodeInput>): InHistory
    requires n.s.WellFormed()
  {
    if inputs == [] then InHistory({}, [])
    else
      var before := inputs[..|inputs| - 1];
      NodeRecord(NodeHistory(n, before), NodeAfter(n, before), inputs[|inputs| - 1])
  }

  /** Inbound messages are accepted, and the store reports only the watermark it was asked to write. */
  ghost predicate Sound(n: Node, i: NodeInput)
    requires n.s.WellFormed()
  {
    match i
    case OnSession(input, clock) => GoodInput(n.s, input) && PassOn(n.q, StepOf(n.s, input).out, clock).ok
    case HandOne(now, clock) => true
    case OnSequencer(a) => !a.Hand? && !a.FromSession? && InOrder(n.q, a)
  }

  ghost predicate SoundRun(n: Node, inputs: seq<NodeInput>)
    requires n.s.WellFormed()
  {
    inputs != [] ==>
      var before := inputs[..|inputs| - 1];
      SoundRun(n, before) && Sound(NodeAfter(n, before), inputs[|inputs| - 1])
  }

  /** The sequencer's count, the session's and the listener's are one. */
  ghost predicate Aligned(n: Node, h: InHistory, b: Listener) {
    && n.s.WellFormed() && Counted(n.s, b) && WaitsForGap(n.s)
    && InLedger(n.q, h) && n.q.sessionNextIn == b.next
  }

  lemma {:induction false} PassOnOk(q: SeqView, log: seq<Output>, clock: nat)
    requires forall i :: 0 <= i < |log| ==> log[i].Raise? ==> !log[i].event.AdminSendRequired?
    ensures PassOn(q, log, clock).ok
    decreases |log|
  {
    hide AskForWatermark;
    if log != [] {
      if log[0].Transmit? {
        PassOnOk(q, log[1..], clock);
      } else {
        PassOnOk(OnSessionEvent(q, log[0].event, clock).q, log[1..], clock);
      }
    }
  }

  lemma {:induction false} SendAsksNothing(s: SessionView, msg: Message, now: nat)
    ensures forall i :: 0 <= i < |SendMessage(s, msg, now).out| ==>
              SendMessage(s, msg, now).out[i].Raise? ==> !SendMessage(s, msg, now).out[i].event.AdminSendRequired?
  {
  }

  lemma {:induction false} PopInLedger(q: SeqView, h: InHistory)
    requires InLedger(q, h) && q.ready != []
    ensures InLedger(q.(ready := q.ready[1..]), h)
  {
  }

  lemma {:induction false} SessionAligned(n: Node, h: InHistory, b: Listener, q: SeqView, input: Input, clock: nat)
    requires Aligned(n, h, b) && GoodInput(n.s, input)
    requires InLedger(q, h) && q.sessionNextIn == b.next && PassOn(q, StepOf(n.s, input).out, clock).ok
    ensures var st := StepOf(n.s, input);
            && HearAll(Some(b), st.out).Some?
            && Aligned(Node(PassOn(q, st.out, clock).q, st.s), PassedIn(h, q, st.out, clock),
                       HearAll(Some(b), st.out).value)
  {
    hide StepOf, PassOn, InLedger, HearAll, PassedIn;
    StepTold(n.s, input, b);
    PassOnAligned(q, h, b, StepOf(n.s, input).out, clock);
  }

  lemma {:induction false} InputAligned(n: Node, h: InHistory, b: Listener, i: NodeInput)
    requires Aligned(n, h, b) && Sound(n, i)
    ensures HearAll(Some(b), NodeOut(n, i)).Some?
    ensures var r := NodeStepOf(n, i);
            Aligned(Node(r.q, r.s), NodeRecord(h, n, i), HearAll(Some(b), NodeOut(n, i)).value)
  {
    hide Aligned, HearAll, PassedIn, PassOn, StepOf, InLedger, RecordIn, Act;
    AlignedParts(n, h, b);
    match i {
      case OnSession(input, clock) =>
        SessionAligned(n, h, b, n.q, input, clock);
      case HandOne(now, clock) =>
        if CanPop(n.q) {
          var q1, msg := n.q.(ready := n.q.ready[1..]), n.q.ready[0];
          PopInLedger(n.q, h);
          SendStep(n.s, msg, now);
          PassOnOk(q1, StepOf(n.s, Apply(Send(msg), now)).out, clock);
          SessionAligned(n, h, b, q1, Apply(Send(msg), now), clock);
        } else {
          NoneHeard(b);
        }
      case OnSequencer(a) =>
        ActAligned(n, h, b, a);
        NoneHeard(b);
    }
  }

  lemma {:induction false} NoneHeard(b: Listener)
    ensures HearAll(Some(b), []) == Some(b)
  {
  }

  lemma {:induction false} AlignedParts(n: Node, h: InHistory, b: Listener)
    requires Aligned(n, h, b)
    ensures n.s.WellFormed() && InLedger(n.q, h) && n.q.sessionNextIn == b.next
  {
  }

  lemma {:induction false} SendStep(s: SessionView, msg: Message, now: nat)
    requires s.WellFormed()
    ensures StepOf(s, Apply(Send(msg), now)) == OnCommand(s, Send(msg), now)
    ensures forall i :: 0 <= i < |StepOf(s, Apply(Send(msg), now)).out| ==>
              StepOf(s, Apply(Send(msg), now)).out[i].Raise? ==>
                !StepOf(s, Apply(Send(msg), now)).out[i].event.AdminSendRequired?
  {
    hide SendMessage;
    SendAsksNothing(s, msg, now);
  }

  lemma {:induction false} ActAligned(n: Node, h: InHistory, b: Listener, a: Action)
    requires Aligned(n, h, b) && !a.Hand? && !a.FromSession? && InOrder(n.q, a)
    ensures Aligned(Node(Act(n.q, a).q, n.s), RecordIn(h, n.q, a), b)
  {
    InActKept(n.q, h, a);
    hide InLedger, Watermark;
  }

  /**
   * Over any run in which inbound messages are accepted, and under the contiguous policy: the
   * sequencer expects the number the session expects; and neither the watermark persisted nor one
   * being written passes a message delivered and not yet handled.
   */
  lemma {:induction false} DeliveredAtLeastOnce(resume: Resume, max: nat, interval: nat, now: nat,
                                                inputs: seq<NodeInput>)
    requires SoundRun(InitialNode(resume, Explicit(Contiguous), max, interval, now), inputs)
    ensures var start := InitialNode(resume, Explicit(Contiguous), max, interval, now);
            var n, b := NodeAfter(start, inputs), HearAll(Some(Listener(resume.nextIn, None, false)), NodeLog(start, inputs));
            && b.Some? && Aligned(n, NodeHistory(start, inputs), b.value)
            && n.q.sessionNextIn == n.s.nextIn
  {
    var start, l := InitialNode(resume, Explicit(Contiguous), max, interval, now), Listener(resume.nextIn, None, false);
    if inputs == [] {
      NoneHeard(l);
    } else {
      hide NodeStepOf, NodeOut, NodeRecord, Aligned, Sound, HearAll;
      var before, last := inputs[..|inputs| - 1], inputs[|inputs| - 1];
      DeliveredAtLeastOnce(resume, max, interval, now, before);
      var mid := NodeAfter(start, before);
      InputAligned(mid, NodeHistory(start, before), HearAll(Some(l), NodeLog(start, before)).value, last);
      HearAppend(Some(l), NodeLog(start, before), NodeOut(mid, last));
      OneCount(NodeAfter(start, inputs), NodeHistory(start, inputs), HearAll(Some(l), NodeLog(start, inputs)).value);
    }
  }

  lemma {:induction false} OneCount(n: Node, h: InHistory, b: Listener)
    requires Aligned(n, h, b)
    ensures n.q.sessionNextIn == n.s.nextIn
  {
  }

  /**
   * So a crash loses nothing: whichever of the two watermarks the store is left with, the next
   * session, resuming from it, asks for every unhandled message, once, as soon as the peer's Logon
   * comes, numbered beyond what the peer sent before.
   */
  lemma {:induction false} UnhandledAskedForAgain(n: Node, h: InHistory, b: Listener, stored: nat, unhandled: nat,
                                                  interval: nat, now: nat, logon: Message)
    requires Aligned(n, h, b) && unhandled in h.pending
    requires stored == n.q.watermarkPersisted || Some(stored) == n.q.watermarkInFlight
    requires logon.msgType.Logon? && logon.seqNum.Some? && logon.seqNum.value > stored
    ensures stored <= unhandled
    ensures ResendBegins(Start(Initial(interval, stored, now), logon, now).out) == [stored]
  {
    PendingAbove(n, h, b, unhandled);
    hide *;
    AskedAtStart(interval, stored, now, logon);
  }

  lemma {:induction false} PendingAbove(n: Node, h: InHistory, b: Listener, unhandled: nat)
    requires Aligned(n, h, b) && unhandled in h.pending
    ensures n.q.watermarkPersisted <= unhandled
    ensures n.q.watermarkInFlight.Some? ==> n.q.watermarkInFlight.value <= unhandled
  {
  }

  lemma {:induction false} AskedAtStart(interval: nat, stored: nat, now: nat, logon: Message)
    requires logon.msgType.Logon? && logon.seqNum.Some? && logon.seqNum.value > stored
    ensures ResendBegins(Start(Initial(interval, stored, now), logon, now).out) == [stored]
  {
    var s := Initial(interval, stored, now);
    assert HandleSessionMessage(s, logon, now).s.rerequest.Some?;
    hide HandleSessionMessage, ResendBegins;
    StepAsks(s, PeerLogon(logon, now));
  }
}
