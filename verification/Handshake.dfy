/**
 * What may be sent and when, over whole runs (session/state.rs:230-249, 422-524): first our Logon, and
 * anything else once it is on the wire and the peer's has come.
 */
module Handshake {
  import opened FixMessage
  import opened Logs
  import opened Replaying
  import opened Session
  import opened SessionRuns
  import opened Outbound
  import opened Deliveries

  function LogonsIn(msgs: seq<Message>): seq<Message> {
    if msgs == [] then []
    else
      var k := |msgs| - 1;
      LogonsIn(msgs[..k]) + if msgs[k].msgType.Logon? then [msgs[k]] else []
  }

  lemma {:induction false} LogonsAppend(a: seq<Message>, b: seq<Message>)
    ensures LogonsIn(a + b) == LogonsIn(a) + LogonsIn(b)
    decreases |b|
  {
    if b == [] {
      assert a + b == a;
    } else {
      assert (a + b)[..|a + b| - 1] == a + b[..|b| - 1];
      LogonsAppend(a, b[..|b| - 1]);
    }
  }

  lemma {:induction false} LogonsOfOne(msg: Message)
    ensures LogonsIn([]) == []
    ensures LogonsIn([msg]) == if msg.msgType.Logon? then [msg] else []
  {
    assert [msg][..0] == [];
  }

  /** Our Logon is on the wire. */
  predicate OwnLogon(log: seq<Output>) {
    LogonsIn(NewMessages(log)) != []
  }

  /** The peer's Logon comes, and is accepted. */
  predicate Greets(s: SessionView, input: Input)
    requires s.WellFormed()
  {
    input.PeerLogon? && StepOf(s, input).outcome == Continue
  }

  /** The peer has logged on: its Logon came and was taken. */
  predicate PeerLoggedOn(s: SessionView, inputs: seq<Input>)
    requires s.WellFormed()
  {
    && inputs != []
    && var before := inputs[..|inputs| - 1];
       PeerLoggedOn(s, before) || Greets(After(s, before), inputs[|inputs| - 1])
  }

  // ---------------------------------------------------------------------
  // One call
  // ---------------------------------------------------------------------

  /** A message that may go out as things stand. */
  predicate Fits(s: SessionView, msg: Message) {
    if msg.msgType.Logon? then msg.heartBtInt == Some(s.interval) else s.logonSent && s.peerLogonReceived
  }

  predicate AllFit(s: SessionView, msgs: seq<Message>) {
    forall i :: 0 <= i < |msgs| ==> Fits(s, msgs[i])
  }

  /** What is held back may go out, and a Logon is held only while none is on the wire. */
  predicate HoldsFitting(s: SessionView) {
    AllFit(s, Deferred(s)) && (s.logonSent ==> LogonsIn(Deferred(s)) == [])
  }

  /** What a call does to the exchange of Logons. */
  predicate Exchanges(s: SessionView, r: Step, greets: bool) {
    && r.s.interval == s.interval
    && r.s.logonSent == (s.logonSent || LogonsIn(NewMessages(r.out)) != [])
    && r.s.peerLogonReceived == (s.peerLogonReceived || greets)
    && AllFit(s, NewMessages(r.out))
    && HoldsFitting(r.s)
  }

  lemma {:induction false} NothingNewExchanges(s: SessionView, r: Step, greets: bool)
    requires HoldsFitting(s) && SendsNothingNew(s, r)
    requires r.s.interval == s.interval && r.s.logonSent == s.logonSent
    requires r.s.peerLogonReceived == (s.peerLogonReceived || greets)
    ensures Exchanges(s, r, greets)
  {
    hide NewMessages, LogonsIn;
    NoNewMessages(r.out);
    LogonsOfOne(Blank(Logon));
  }

  lemma {:induction false} SendExchanges(s: SessionView, msg: Message, now: nat)
    requires HoldsFitting(s)
    ensures Exchanges(s, SendMessage(s, msg, now), false)
  {
    hide NewMessages, LogonsIn;
    var r := SendMessage(s, msg, now);
    LogonsOfOne(msg);
    if Refused(s, msg) {
      NoNewMessages([]);
    } else if s.replay.Some? {
      NoNewMessages([]);
      LogonsAppend(s.replay.value.queue, [msg]);
    } else {
      var timers := if msg.IsAdmin() then s.timers else s.timers.(nextOut := now + s.interval);
      NewMessagesOfDispatch(s.(highestAccepted := msg.seqNum.value, timers := timers), msg);
    }
  }

  /** The queue is sent from the front. */
  lemma {:induction false} QueueExchanges(s: SessionView, queue: seq<Message>)
    requires forall i :: 0 <= i < |queue| ==> queue[i].seqNum.Some?
    ensures var r := DispatchQueue(s, queue);
            && NewMessages(r.out) <= queue
            && r.s.logonSent == (s.logonSent || LogonsIn(NewMessages(r.out)) != [])
    decreases |queue|
  {
    hide NewMessages, LogonsIn;
    LogonsOfOne(Blank(Logon));
    if queue == [] {
      NoNewMessages([]);
    } else {
      var first := DispatchOutbound(s, queue[0]);
      NewMessagesOfDispatch(s, queue[0]);
      LogonsOfOne(queue[0]);
      assert first.s.logonSent == (s.logonSent || queue[0].msgType.Logon?);
      hide DispatchOutbound;
      QueueExchanges(first.s, queue[1..]);
      var rest := DispatchQueue(first.s, queue[1..]);
      NewMessagesAppend(first.out, rest.out);
      LogonsAppend([queue[0]], NewMessages(rest.out));
    }
  }

  lemma {:induction false} CompleteExchanges(s: SessionView)
    requires s.WellFormed() && HoldsFitting(s)
    ensures Exchanges(s, CompleteReplay(s), false)
  {
    if s.replay.Some? {
      CompleteNews(s);
      hide CompleteReplay, DispatchQueue, FillTrailing, NewMessages, LogonsIn;
      var open := FillTrailing(s).s.(replay := None);
      QueueExchanges(open, s.replay.value.queue);
      LogonsOfOne(Blank(Logon));
    } else {
      hide NewMessages, LogonsIn;
      NoNewMessages([]);
      LogonsOfOne(Blank(Logon));
    }
  }

  /** Of what ends a replay only the queue is new, and only the queue changes the exchange. */
  lemma {:induction false} CompleteNews(s: SessionView)
    requires s.WellFormed() && s.replay.Some?
    ensures var open := FillTrailing(s).s.(replay := None);
            var queue, r := DispatchQueue(open, s.replay.value.queue), CompleteReplay(s);
            && open.logonSent == s.logonSent
            && NewMessages(r.out) == NewMessages(queue.out)
            && r.s.replay.None? && r.s.interval == s.interval && r.s.logonSent == queue.s.logonSent
            && r.s.peerLogonReceived == s.peerLogonReceived
  {
    hide NewMessages, DispatchQueue, FillTrailing;
    var fill := FillTrailing(s);
    var open := fill.s.(replay := None);
    var queue := DispatchQueue(open, s.replay.value.queue);
    var sync := RequestSyncTestRequest(queue.s);
    FillNews(s);
    NoNewMessages(sync.out);
    hide RequestSyncTestRequest;
    NewMessagesAppend(fill.out, queue.out);
    NewMessagesAppend(fill.out + queue.out, sync.out);
    assert [] + NewMessages(queue.out) == NewMessages(queue.out) == NewMessages(queue.out) + [];
  }

  lemma {:induction false} FillNews(s: SessionView)
    requires s.WellFormed() && s.replay.Some?
    ensures var fill := FillTrailing(s);
            && NewMessages(fill.out) == []
            && fill.s.logonSent == s.logonSent && fill.s.interval == s.interval && fill.s.peerLogonReceived == s.peerLogonReceived
  {
    hide NewMessages;
    NoNewMessages(FillTrailing(s).out);
  }

  lemma {:induction false} CommandExchanges(s: SessionView, cmd: Command, now: nat)
    requires s.WellFormed() && HoldsFitting(s)
    ensures Exchanges(s, OnCommand(s, cmd, now), false)
  {
    hide SendMessage, ReplayMessage, CompleteReplay, Exchanges, NewMessages, LogonsIn;
    var s1 := s.(timers := s.timers.(nextOut := now + s.interval));
    match cmd
    case Send(msg) => SendExchanges(s, msg, now);
    case Replay(msg) =>
      ReplaySendsNothingNew(s1, msg);
      NothingNewExchanges(s1, ReplayMessage(s1, msg), false);
      SameExchanges(s, s1, ReplayMessage(s1, msg));
    case ReplayComplete =>
      CompleteExchanges(s1);
      SameExchanges(s, s1, CompleteReplay(s1));
    case Disconnect =>
      LogoutSendsNothing(s, DISCONNECT_REQUESTED, now);
      NothingNewExchanges(s, RequestLogout(s, DISCONNECT_REQUESTED, now), false);
  }

  lemma {:induction false} SameExchanges(s: SessionView, s1: SessionView, r: Step)
    requires Exchanges(s1, r, false) && s1 == s.(timers := s1.timers)
    ensures Exchanges(s, r, false)
  {
    hide HoldsFitting, NewMessages, LogonsIn;
  }

  lemma {:induction false} StepExchanges(s: SessionView, input: Input)
    requires s.WellFormed() && HoldsFitting(s)
    ensures Exchanges(s, StepOf(s, input), Greets(s, input))
  {
    hide Exchanges, HoldsFitting, OnCommand, OnTimeout, HandleSessionMessage, StartTail;
    match input
    case Apply(cmd, now) => CommandExchanges(s, cmd, now);
    case Receive(msg, now) => ReceiveExchanges(s, msg, now);
    case PeerLogon(logon, now) => StartExchanges(s, logon, now);
    case Tick(now) => TickExchanges(s, now);
    case AskLogon => NothingNewExchanges(s, RequestLogon(s), false);
    case PeerClosed => NothingNewExchanges(s, Step(s, [Raise(Disconnected)], Close), false);
  }

  lemma {:induction false} TickExchanges(s: SessionView, now: nat)
    requires HoldsFitting(s)
    ensures Exchanges(s, OnTimeout(s, now), false)
  {
    hide Exchanges, HoldsFitting;
    NothingNewExchanges(s, OnTimeout(s, now), false);
  }

  lemma {:induction false} ReceiveExchanges(s: SessionView, msg: Message, now: nat)
    requires HoldsFitting(s)
    ensures Exchanges(s, OnMessage(s, msg, now), false)
  {
    hide HandleSessionMessage, Exchanges, HoldsFitting;
    var s1 := s.(timers := s.timers.(nextIn := now + s.interval, missed := 0));
    HandleSendsNothing(s1, msg, now);
    HandleFrame(s1, msg, now);
    NothingNewExchanges(s, OnMessage(s, msg, now), false);
  }

  lemma {:induction false} StartExchanges(s: SessionView, logon: Message, now: nat)
    requires HoldsFitting(s)
    ensures Exchanges(s, Start(s, logon, now), Start(s, logon, now).outcome == Continue)
  {
    hide HandleSessionMessage, Exchanges, HoldsFitting;
    HandleSendsNothing(s, logon, now);
    HandleFrame(s, logon, now);
    NothingNewExchanges(s, Start(s, logon, now), Start(s, logon, now).outcome == Continue);
  }

  // ---------------------------------------------------------------------
  // Whole runs
  // ---------------------------------------------------------------------

  /** The session knows how far the exchange of Logons has come. */
  lemma {:induction false} ExchangeKnown(interval: nat, nextIn: nat, now: nat, inputs: seq<Input>)
    ensures var s := Initial(interval, nextIn, now);
            var a := After(s, inputs);
            && HoldsFitting(a) && a.interval == interval
            && a.logonSent == OwnLogon(Log(s, inputs))
            && a.peerLogonReceived == PeerLoggedOn(s, inputs)
  {
    hide StepOf, NewMessages, LogonsIn, HoldsFitting, Greets;
    LogonsOfOne(Blank(Logon));
    if inputs != [] {
      var s, before, last := Initial(interval, nextIn, now), inputs[..|inputs| - 1], inputs[|inputs| - 1];
      ExchangeKnown(interval, nextIn, now, before);
      StepExchanges(After(s, before), last);
      var out := StepOf(After(s, before), last).out;
      NewMessagesAppend(Log(s, before), out);
      LogonsAppend(NewMessages(Log(s, before)), NewMessages(out));
    } else {
      NoNewMessages([]);
      InitialHolds(interval, nextIn, now);
    }
  }

  lemma {:induction false} InitialHolds(interval: nat, nextIn: nat, now: nat)
    ensures HoldsFitting(Initial(interval, nextIn, now))
  {
  }

  lemma {:induction false} NewAt(log: seq<Output>, i: nat) returns (j: nat)
    requires i < |log| && SendsNew(log[i])
    ensures j < |NewMessages(log)| && NewMessages(log)[j] == log[i].msg
    decreases |log|
  {
    if i == |log| - 1 {
      j := |NewMessages(log)| - 1;
    } else {
      j := NewAt(log[..|log| - 1], i);
    }
  }

  /**
   * Whatever a session started afresh has been through, a message it sends for the first time is either a
   * Logon, with the session's own interval, or comes when our Logon is already on the wire and the peer's
   * has been accepted: messages that waited for a replay to end included.
   */
  lemma {:induction false} LogonsFirst(interval: nat, nextIn: nat, now: nat, inputs: seq<Input>, input: Input, i: nat)
    requires i < |StepOf(After(Initial(interval, nextIn, now), inputs), input).out|
    requires SendsNew(StepOf(After(Initial(interval, nextIn, now), inputs), input).out[i])
    ensures var s := Initial(interval, nextIn, now);
            var msg := StepOf(After(s, inputs), input).out[i].msg;
            if msg.msgType.Logon? then msg.heartBtInt == Some(interval)
            else OwnLogon(Log(s, inputs)) && PeerLoggedOn(s, inputs)
  {
    hide StepOf, NewMessages, LogonsIn, HoldsFitting, Greets;
    var s := Initial(interval, nextIn, now);
    ExchangeKnown(interval, nextIn, now, inputs);
    StepExchanges(After(s, inputs), input);
    var j := NewAt(StepOf(After(s, inputs), input).out, i);
    assert Fits(After(s, inputs), NewMessages(StepOf(After(s, inputs), input).out)[j]);
  }

  // ---------------------------------------------------------------------
  // How many Logons go out
  // ---------------------------------------------------------------------

  lemma {:induction false} LogonsWithin(a: seq<Message>, b: seq<Message>)
    requires a <= b && LogonsIn(b) == []
    ensures LogonsIn(a) == []
  {
    hide LogonsIn;
    assert b == a + b[|a|..];
    LogonsAppend(a, b[|a|..]);
  }

  lemma {:induction false} ClosedByLogout(s: SessionView, queue: seq<Message>) returns (i: nat)
    requires forall i :: 0 <= i < |queue| ==> queue[i].seqNum.Some?
    requires DispatchQueue(s, queue).outcome == Close
    ensures i < |queue| && queue[i].msgType.Logout?
    decreases |queue|
  {
    hide DispatchOutbound;
    var first := DispatchOutbound(s, queue[0]);
    if first.outcome == Close {
      i := 0;
    } else {
      var j := ClosedByLogout(first.s, queue[1..]);
      i := j + 1;
    }
  }

  /** A replay whose end closes the session held no Logon. */
  lemma {:induction false} CutOffLogons(s: SessionView)
    requires s.WellFormed() && HoldsFitting(s) && CompleteReplay(s).outcome == Close
    ensures LogonsIn(Deferred(s)) == [] && LogonsIn(NewMessages(CompleteReplay(s).out)) == []
    ensures Deferred(CompleteReplay(s).s) == []
  {
    var open := FillTrailing(s).s.(replay := None);
    CompleteNews(s);
    hide LogonsIn, NewMessages, DispatchQueue, FillTrailing;
    var i := ClosedByLogout(open, s.replay.value.queue);
    assert Fits(s, Deferred(s)[i]);
    QueueExchanges(open, s.replay.value.queue);
    LogonsWithin(NewMessages(CompleteReplay(s).out), Deferred(s));
  }

  /** The Logons held and accepted are the Logons sent and held. */
  predicate KeepsLogons(s: SessionView, accepted: seq<Message>, r: Step) {
    LogonsIn(Deferred(s)) + LogonsIn(accepted) == LogonsIn(NewMessages(r.out)) + LogonsIn(Deferred(r.s))
  }

  lemma {:induction false} ConservesLogons(s: SessionView, accepted: seq<Message>, r: Step)
    requires Conserves(s, accepted, r)
    ensures KeepsLogons(s, accepted, r)
  {
    hide LogonsIn, NewMessages, Deferred;
    LogonsAppend(Deferred(s), accepted);
    LogonsAppend(NewMessages(r.out), Deferred(r.s));
  }

  lemma {:induction false} StepKeepsLogons(s: SessionView, input: Input)
    requires s.WellFormed() && HoldsFitting(s)
    ensures KeepsLogons(s, AcceptedBy(s, input), StepOf(s, input))
  {
    if input.Apply? && input.cmd.ReplayComplete? && StepOf(s, input).outcome == Close {
      hide LogonsIn, NewMessages, CompleteReplay;
      CutOffLogons(s.(timers := s.timers.(nextOut := input.now + s.interval)));
      LogonsOfOne(Blank(Logon));
    } else {
      hide StepOf, AcceptedBy, KeepsLogons, Conserves;
      StepConserves(s, input);
      ConservesLogons(s, AcceptedBy(s, input), StepOf(s, input));
    }
  }

  /** The Logons of a run: those on the wire, and then those held behind a replay. */
  function LogonsOf(s: SessionView, inputs: seq<Input>): seq<Message>
    requires s.WellFormed()
  {
    LogonsIn(NewMessages(Log(s, inputs))) + LogonsIn(Deferred(After(s, inputs)))
  }

  lemma {:induction false} LogonsAccepted(interval: nat, nextIn: nat, now: nat, inputs: seq<Input>, input: Input)
    ensures var s := Initial(interval, nextIn, now);
            LogonsOf(s, inputs + [input]) == LogonsOf(s, inputs) + LogonsIn(AcceptedBy(After(s, inputs), input))
  {
    hide StepOf, NewMessages, LogonsIn, HoldsFitting, AcceptedBy, Deferred;
    var s := Initial(interval, nextIn, now);
    var mid := After(s, inputs);
    var r := StepOf(mid, input);
    assert (inputs + [input])[..|inputs|] == inputs;
    ExchangeKnown(interval, nextIn, now, inputs);
    StepKeepsLogons(mid, input);
    NewMessagesAppend(Log(s, inputs), r.out);
    LogonsAppend(NewMessages(Log(s, inputs)), NewMessages(r.out));
    var sent, held, more := LogonsIn(NewMessages(Log(s, inputs))), LogonsIn(Deferred(mid)), LogonsIn(AcceptedBy(mid, input));
    var sent', held' := LogonsIn(NewMessages(r.out)), LogonsIn(Deferred(r.s));
    assert held + more == sent' + held';
    Regroup(sent, held, more, sent', held');
  }

  /** A Logon accepted although another one is held. */
  predicate Doubles(s: SessionView, input: Input)
    requires s.WellFormed()
  {
    && input.Apply? && input.cmd.Send? && input.cmd.msg.msgType.Logon?
    && StepOf(s, input).outcome != Fail && LogonsIn(Deferred(s)) != []
  }

  predicate NeverDoubles(s: SessionView, inputs: seq<Input>)
    requires s.WellFormed()
  {
    inputs != [] ==>
      var before := inputs[..|inputs| - 1];
      NeverDoubles(s, before) && !Doubles(After(s, before), inputs[|inputs| - 1])
  }

  /**
   * Over any run of a session started afresh, at most one Logon is on the wire or on its way there if and
   * only if none was accepted while another one was held behind a replay.
   */
  lemma {:induction false} OneLogonWhen(interval: nat, nextIn: nat, now: nat, inputs: seq<Input>)
    ensures var s := Initial(interval, nextIn, now);
            |LogonsOf(s, inputs)| <= 1 <==> NeverDoubles(s, inputs)
  {
    hide StepOf, NewMessages, LogonsIn;
    var s := Initial(interval, nextIn, now);
    LogonsOfOne(Blank(Logon));
    if inputs == [] {
      NoNewMessages([]);
    } else {
      var before, last := inputs[..|inputs| - 1], inputs[|inputs| - 1];
      OneLogonWhen(interval, nextIn, now, before);
      ExchangeKnown(interval, nextIn, now, before);
      assert before + [last] == inputs;
      LogonsAccepted(interval, nextIn, now, before, last);
      AcceptsLogon(After(s, before), last);
    }
  }

  lemma {:induction false} AcceptsLogon(s: SessionView, input: Input)
    requires s.WellFormed()
    ensures |LogonsIn(AcceptedBy(s, input))| <= 1
    ensures LogonsIn(AcceptedBy(s, input)) != [] ==> !s.logonSent
    ensures Doubles(s, input) <==> LogonsIn(AcceptedBy(s, input)) != [] && LogonsIn(Deferred(s)) != []
  {
    hide LogonsIn;
    LogonsOfOne(if input.Apply? && input.cmd.Send? then input.cmd.msg else Blank(Logon));
  }

  function NumberedLogon(interval: nat, n: nat): Message {
    LogonMessage(interval).(seqNum := Some(n))
  }

  /** The peer logs on and asks for a resend before we log on. */
  function AskedEarly(interval: nat): seq<Input> {
    [PeerLogon(NumberedLogon(interval, 1), 0), Receive(ResendRequestMessage(1).(seqNum := Some(2)), 0)]
  }

  lemma {:induction false} StandsAfterAsking(interval: nat)
    ensures var a := After(Initial(interval, 1, 0), AskedEarly(interval));
            a.replay == Some(ReplayView(1, 0, 1, 0, [])) && a.highestAccepted == 0 && !a.logonSent && a.interval == interval
  {
    hide StepOf;
    var s, run := Initial(interval, 1, 0), AskedEarly(interval);
    assert run[..1][..0] == [] && run[..1] == [run[0]];
    var s1 := StepOf(s, run[0]).s;
    assert After(s, run[..1]) == s1;
    Greeted(interval);
    RequestHeard(s1);
  }

  lemma {:induction false} Greeted(interval: nat)
    ensures var s := Initial(interval, 1, 0);
            StepOf(s, AskedEarly(interval)[0]).s
            == s.(nextIn := 2, peerLogonReceived := true, testRequestSeq := 1, recoveryTrId := Some(Helo(1)))
  {
    var s := Initial(interval, 1, 0);
    var h := HandleSessionMessage(s, NumberedLogon(interval, 1), 0);
    assert h == Step(s.(nextIn := 2), [Raise(InboundAdvanced(2))], Continue);
    hide HandleSessionMessage;
  }

  lemma {:induction false} RequestHeard(s: SessionView)
    requires s.WellFormed() && s.nextIn == 2 && s.closing.None? && s.replay.None? && s.highestSent == 0 && s.rerequest.None?
    ensures var a := StepOf(s, AskedEarly(s.interval)[1]).s;
            && a.replay == Some(ReplayView(1, 0, 1, 0, [])) && a.highestAccepted == s.highestAccepted
            && a.logonSent == s.logonSent && a.interval == s.interval
  {
    var asks := AskedEarly(s.interval)[1].msg;
    var s2 := Advanced(s.(timers := s.timers.(nextIn := 0 + s.interval, missed := 0)), asks);
    assert OpenReplay(s2, asks).outcome == Continue;
    assert DispatchMessage(s2, asks, true, 0).outcome == Continue;
  }

  /** Two Logons are accepted while the replay is outstanding, and both go out when it ends. */
  lemma {:induction false} TwoLogonsGoOut(interval: nat)
    ensures var s := Initial(interval, 1, 0);
            var first, second := NumberedLogon(interval, 1), NumberedLogon(interval, 2);
            var run := AskedEarly(interval)
                       + [Apply(Send(first), 0)] + [Apply(Send(second), 0)] + [Apply(ReplayComplete, 0)];
            LogonsIn(NewMessages(Log(s, run))) == [first, second]
  {
    hide NewMessages, LogonsIn, StepOf, AcceptedBy;
    var s, first, second := Initial(interval, 1, 0), NumberedLogon(interval, 1), NumberedLogon(interval, 2);
    var a := AskedEarly(interval);
    var b := a + [Apply(Send(first), 0)];
    var c := b + [Apply(Send(second), 0)];
    var d := c + [Apply(ReplayComplete, 0)];
    assert b[..|a|] == a && c[..|b|] == b && d[..|c|] == c;
    StandsAfterAsking(interval);
    NoneSentEarly(interval);
    HeldBack(After(s, a), 1);
    HeldBack(After(s, b), 2);
    LetGo(After(s, c));
    LogonsAccepted(interval, 1, 0, a, Apply(Send(first), 0));
    LogonsAccepted(interval, 1, 0, b, Apply(Send(second), 0));
    LogonsAccepted(interval, 1, 0, c, Apply(ReplayComplete, 0));
    LogonsOfOne(first);
    LogonsOfOne(second);
    assert After(s, d) == StepOf(After(s, c), Apply(ReplayComplete, 0)).s;
    assert LogonsOf(s, d) == [first, second];
    assert LogonsIn(Deferred(After(s, d))) == [];
  }

  lemma {:induction false} HeldBack(s: SessionView, n: nat)
    requires s.WellFormed() && s.replay.Some? && !s.logonSent && n > s.highestAccepted
    ensures var logon := NumberedLogon(s.interval, n);
            var r := StepOf(s, Apply(Send(logon), 0));
            && AcceptedBy(s, Apply(Send(logon), 0)) == [logon]
            && r.s.replay.Some? && !r.s.logonSent && r.s.highestAccepted == n && r.s.interval == s.interval
  {
  }

  lemma {:induction false} LetGo(s: SessionView)
    requires s.WellFormed()
    ensures AcceptedBy(s, Apply(ReplayComplete, 0)) == [] && Deferred(StepOf(s, Apply(ReplayComplete, 0)).s) == []
  {
    hide CompleteReplay;
  }

  lemma {:induction false} NoneSentEarly(interval: nat)
    ensures LogonsOf(Initial(interval, 1, 0), AskedEarly(interval)) == []
  {
    hide NewMessages, LogonsIn, StepOf;
    var s, run := Initial(interval, 1, 0), AskedEarly(interval);
    StandsAfterAsking(interval);
    ExchangeKnown(interval, 1, 0, run);
    LogonsOfOne(Blank(Logon));
  }

  // ---------------------------------------------------------------------
  // When the application is told
  // ---------------------------------------------------------------------

  function LoggedOnOf(o: Output): seq<bool> {
    if o.Raise? && o.event.LoggedOn? then [true] else []
  }

  /** One notice for each Logon of ours that finds the peer's already there, and one for the peer's if it finds ours. */
  predicate Notifies(s: SessionView, r: Step, greets: bool) {
    |Picked(r.out, LoggedOnOf)| == (if s.peerLogonReceived then |LogonsIn(NewMessages(r.out))| else 0)
                                   + if greets && s.logonSent && r.s.closing.None? then 1 else 0
  }

  lemma {:induction false} DispatchNotifies(s: SessionView, msg: Message)
    requires msg.seqNum.Some?
    ensures Notifies(s, DispatchOutbound(s, msg), false)
  {
    hide Picked, NewMessages, LogonsIn;
    var t := Transmitted(s, msg, New);
    NewMessagesOfDispatch(s, msg);
    LogonsOfOne(msg);
    NonePicked(t.out, LoggedOnOf);
    PickedOne([Raise(LoggedOn)], LoggedOnOf);
    PickedOne([], LoggedOnOf);
    PickedAppend(t.out, [Raise(LoggedOn)], LoggedOnOf);
    assert t.out + [] == t.out;
  }

  lemma {:induction false} QueueNotifies(s: SessionView, queue: seq<Message>)
    requires forall i :: 0 <= i < |queue| ==> queue[i].seqNum.Some?
    ensures Notifies(s, DispatchQueue(s, queue), false)
    decreases |queue|
  {
    hide Picked, NewMessages, LogonsIn, DispatchOutbound;
    if queue == [] {
      NoNewMessages([]);
      LogonsOfOne(Blank(Logon));
      PickedOne([], LoggedOnOf);
    } else {
      var first := DispatchOutbound(s, queue[0]);
      DispatchNotifies(s, queue[0]);
      QueueNotifies(first.s, queue[1..]);
      var rest := DispatchQueue(first.s, queue[1..]);
      PickedAppend(first.out, rest.out, LoggedOnOf);
      NewMessagesAppend(first.out, rest.out);
      LogonsAppend(NewMessages(first.out), NewMessages(rest.out));
    }
  }

  /** A call that sends nothing new and raises no notice. */
  lemma {:induction false} QuietNotifies(s: SessionView, r: Step)
    requires forall i :: 0 <= i < |r.out| ==> !SendsNew(r.out[i]) && LoggedOnOf(r.out[i]) == []
    ensures Notifies(s, r, false)
  {
    hide Picked, NewMessages, LogonsIn;
    NoNewMessages(r.out);
    LogonsOfOne(Blank(Logon));
    NonePicked(r.out, LoggedOnOf);
  }

  lemma {:induction false} CompleteNotifies(s: SessionView)
    requires s.WellFormed()
    ensures Notifies(s, CompleteReplay(s), false)
  {
    if s.replay.Some? {
      hide Picked, NewMessages, LogonsIn, DispatchQueue, FillTrailing, RequestSyncTestRequest, LoggedOnOf;
      var fill := FillTrailing(s);
      var open := fill.s.(replay := None);
      var queue := DispatchQueue(open, s.replay.value.queue);
      var sync := RequestSyncTestRequest(queue.s);
      CompleteNews(s);
      FillSpares(s);
      SyncSpares(queue.s);
      QueueNotifies(open, s.replay.value.queue);
      PickedAppend(fill.out, queue.out, LoggedOnOf);
      PickedAppend(fill.out + queue.out, sync.out, LoggedOnOf);
    } else {
      QuietNotifies(s, CompleteReplay(s));
    }
  }

  lemma {:induction false} FillSpares(s: SessionView)
    requires s.WellFormed() && s.replay.Some?
    ensures FillTrailing(s).s.peerLogonReceived == s.peerLogonReceived
    ensures Picked(FillTrailing(s).out, LoggedOnOf) == []
  {
    hide Picked;
    NonePicked(FillTrailing(s).out, LoggedOnOf);
  }

  lemma {:induction false} SyncSpares(s: SessionView)
    ensures Picked(RequestSyncTestRequest(s).out, LoggedOnOf) == []
  {
    hide Picked;
    NonePicked(RequestSyncTestRequest(s).out, LoggedOnOf);
  }

  lemma {:induction false} SendNotifies(s: SessionView, msg: Message, now: nat)
    ensures Notifies(s, SendMessage(s, msg, now), false)
  {
    hide DispatchOutbound, Notifies;
    var r := SendMessage(s, msg, now);
    if Refused(s, msg) || s.replay.Some? {
      QuietNotifies(s, r);
    } else {
      var timers := if msg.IsAdmin() then s.timers else s.timers.(nextOut := now + s.interval);
      var s1 := s.(highestAccepted := msg.seqNum.value, timers := timers);
      DispatchNotifies(s1, msg);
      SameNotifies(s, s1, r);
    }
  }

  lemma {:induction false} SameNotifies(s: SessionView, s1: SessionView, r: Step)
    requires Notifies(s1, r, false) && s1.peerLogonReceived == s.peerLogonReceived
    ensures Notifies(s, r, false)
  {
  }

  lemma {:induction false} ReplayNotifies(s: SessionView, msg: Message)
    requires s.WellFormed()
    ensures Notifies(s, ReplayMessage(s, msg), false)
  {
    hide Notifies;
    QuietNotifies(s, ReplayMessage(s, msg));
  }

  lemma {:induction false} CommandNotifies(s: SessionView, cmd: Command, now: nat)
    requires s.WellFormed()
    ensures Notifies(s, OnCommand(s, cmd, now), false)
  {
    hide SendMessage, ReplayMessage, CompleteReplay, Notifies;
    var s1 := s.(timers := s.timers.(nextOut := now + s.interval));
    match cmd
    case Send(msg) => SendNotifies(s, msg, now);
    case Replay(msg) =>
      ReplayNotifies(s1, msg);
      SameNotifies(s, s1, ReplayMessage(s1, msg));
    case ReplayComplete =>
      CompleteNotifies(s1);
      SameNotifies(s, s1, CompleteReplay(s1));
    case Disconnect => QuietNotifies(s, RequestLogout(s, DISCONNECT_REQUESTED, now));
  }

  lemma {:induction false} StepNotifies(s: SessionView, input: Input)
    requires s.WellFormed()
    ensures Notifies(s, StepOf(s, input), Greets(s, input))
  {
    hide Notifies, OnCommand, OnTimeout, HandleSessionMessage, StartTail;
    match input
    case Apply(cmd, now) => CommandNotifies(s, cmd, now);
    case Receive(msg, now) =>
      HandleFrame(s.(timers := s.timers.(nextIn := now + s.interval, missed := 0)), msg, now);
      QuietNotifies(s, StepOf(s, input));
    case PeerLogon(logon, now) => StartNotifies(s, logon, now);
    case Tick(now) => TickNotifies(s, now);
    case AskLogon => QuietNotifies(s, RequestLogon(s));
    case PeerClosed => QuietNotifies(s, Step(s, [Raise(Disconnected)], Close));
  }

  lemma {:induction false} TickNotifies(s: SessionView, now: nat)
    ensures Notifies(s, OnTimeout(s, now), false)
  {
    hide Notifies;
    QuietNotifies(s, OnTimeout(s, now));
  }

  lemma {:induction false} TailNotifies(s: SessionView)
    ensures Picked(StartTail(s).out, LoggedOnOf) == if s.logonSent && s.closing.None? then [true] else []
    ensures NewMessages(StartTail(s).out) == []
  {
    hide Picked, NewMessages;
    var tail := StartTail(s);
    var notice := if s.logonSent && s.closing.None? then [Raise(LoggedOn)] else [];
    var rest := tail.out[|notice|..];
    assert tail.out == notice + rest;
    PickedOne(notice, LoggedOnOf);
    PickedOne(rest, LoggedOnOf);
    PickedAppend(notice, rest, LoggedOnOf);
    NoNewMessages(tail.out);
  }

  lemma {:induction false} HandleNotifies(s: SessionView, msg: Message, now: nat)
    ensures var h := HandleSessionMessage(s, msg, now);
            Picked(h.out, LoggedOnOf) == [] && NewMessages(h.out) == [] && h.s.logonSent == s.logonSent
  {
    hide Picked, NewMessages, HandleSessionMessage;
    HandleFrame(s, msg, now);
    NonePicked(HandleSessionMessage(s, msg, now).out, LoggedOnOf);
    NoNewMessages(HandleSessionMessage(s, msg, now).out);
  }

  lemma {:induction false} StartNotifies(s: SessionView, logon: Message, now: nat)
    ensures Notifies(s, Start(s, logon, now), Start(s, logon, now).outcome == Continue)
  {
    hide HandleSessionMessage, StartTail, Picked, NewMessages, LogonsIn, LoggedOnOf;
    var h := HandleSessionMessage(s, logon, now);
    HandleNotifies(s, logon, now);
    LogonsOfOne(Blank(Logon));
    if h.outcome == Continue {
      TailNotifies(h.s);
      PickedAppend(h.out, StartTail(h.s).out, LoggedOnOf);
      NewMessagesAppend(h.out, StartTail(h.s).out);
    }
  }

  /**
   * Whatever a session started afresh has been through, the next call reports it logged on once for each
   * Logon of ours that goes out after the peer's was accepted, and once when the peer's is accepted after
   * ours went out unless the session is ending; and not otherwise.
   */
  lemma {:induction false} LoggedOnWhen(interval: nat, nextIn: nat, now: nat, inputs: seq<Input>, input: Input)
    ensures var s := Initial(interval, nextIn, now);
            var r := StepOf(After(s, inputs), input);
            |Picked(r.out, LoggedOnOf)|
            == (if PeerLoggedOn(s, inputs) then |LogonsIn(NewMessages(r.out))| else 0)
               + if Greets(After(s, inputs), input) && OwnLogon(Log(s, inputs)) && r.s.closing.None? then 1 else 0
  {
    hide StepOf, NewMessages, LogonsIn, HoldsFitting, Greets, Picked, OwnLogon, PeerLoggedOn;
    ExchangeKnown(interval, nextIn, now, inputs);
    StepNotifies(After(Initial(interval, nextIn, now), inputs), input);
  }

  // ---------------------------------------------------------------------
  // What is accepted
  // ---------------------------------------------------------------------

  /** The greatest number among these messages. */
  function Greatest(msgs: seq<Message>): nat {
    if msgs == [] then 0
    else
      var k := |msgs| - 1;
      Max(Greatest(msgs[..k]), if msgs[k].seqNum.Some? then msgs[k].seqNum.value else 0)
  }

  /** The greatest end among these ranges. */
  function GreatestEnd(ranges: seq<Range>): nat {
    if ranges == [] then 0
    else
      var k := |ranges| - 1;
      Max(GreatestEnd(ranges[..k]), ranges[k].last)
  }

  lemma {:induction false} GreatestAppend(a: seq<Message>, b: seq<Message>)
    requires |b| <= 1
    ensures Greatest(a + b) == Max(Greatest(a), Greatest(b))
  {
    if b == [] {
      assert a + b == a;
    } else {
      assert (a + b)[..|a|] == a && b[..0] == [];
    }
  }

  lemma {:induction false} GreatestEndAppend(a: seq<Range>, b: seq<Range>)
    requires |b| <= 1
    ensures GreatestEnd(a + b) == Max(GreatestEnd(a), GreatestEnd(b))
  {
    if b == [] {
      assert a + b == a;
    } else {
      assert (a + b)[..|a|] == a && b[..0] == [];
    }
  }

  /** What an input asks for, as a rule for the numbers that may still be given out. */
  predicate Reserves(s: SessionView, msg: Message, r: Step) {
    r.s.highestAccepted
    == Max(s.highestAccepted,
           GreatestEnd(if !msg.msgType.ResendRequest? || msg.seqNum.None? || msg.seqNum.value < s.nextIn || s.replay.Some? then []
                       else Named(msg, s.highestSent)))
  }

  lemma {:induction false} OpenReserves(s: SessionView, msg: Message)
    ensures OpenReplay(s, msg).s.highestAccepted
            == Max(s.highestAccepted, GreatestEnd(if s.replay.Some? then [] else Named(msg, s.highestSent)))
  {
    if s.replay.None? && Named(msg, s.highestSent) != [] {
      assert Named(msg, s.highestSent)[..0] == [];
    }
  }

  lemma {:induction false} InSequenceReserves(s: SessionView, msg: Message, now: nat)
    requires msg.seqNum == Some(s.nextIn) && (msg.msgType.SequenceReset? ==> msg.newSeqNo.Some?)
    ensures Reserves(s, msg, HandleInSequence(s, msg, now))
  {
    hide OpenReplay, Named, GreatestEnd, Prompted;
    NoneTaken();
    OpenReserves(Advanced(s, msg), msg);
    PromptTakes(Advanced(s, msg), msg, now);
  }

  lemma {:induction false} PromptTakes(s: SessionView, msg: Message, now: nat)
    ensures Prompted(s, msg, now).s.highestAccepted
            == if msg.msgType.ResendRequest? then OpenReplay(s, msg).s.highestAccepted else s.highestAccepted
  {
    hide OpenReplay;
  }

  lemma {:induction false} GapReserves(s: SessionView, msg: Message, now: nat)
    requires msg.seqNum.Some? && msg.seqNum.value > s.nextIn
    ensures Reserves(s, msg, HandleGap(s, msg, now))
  {
    hide OpenReplay, Named, GreatestEnd;
    NoneTaken();
    OpenReserves(AskForGap(s, msg).s, msg);
  }

  lemma {:induction false} HandleReserves(s: SessionView, msg: Message, now: nat)
    ensures Reserves(s, msg, HandleSessionMessage(s, msg, now))
  {
    hide HandleInSequence, HandleGap, Named, GreatestEnd;
    NoneTaken();
    if msg.seqNum.Some? && !(msg.msgType.SequenceReset? && (msg.gapFillFlag != Some(true) || msg.newSeqNo.None?)) {
      if msg.seqNum.value == s.nextIn {
        InSequenceReserves(s, msg, now);
      } else if msg.seqNum.value > s.nextIn {
        GapReserves(s, msg, now);
      }
    }
  }

  /** One call: the highest number taken follows what is accepted and what is promised to the peer. */
  predicate Takes(s: SessionView, accepted: seq<Message>, ranges: seq<Range>, r: Step) {
    r.s.highestAccepted == Max(s.highestAccepted, Max(Greatest(accepted), GreatestEnd(ranges)))
  }

  lemma {:induction false} SendTakes(s: SessionView, msg: Message, now: nat)
    ensures var r := SendMessage(s, msg, now);
            Takes(s, if r.outcome != Fail then [msg] else [], [], r)
  {
    assert [msg][..0] == [] && Greatest([msg][..0]) == 0;
    assert Greatest([msg]) == if msg.seqNum.Some? then msg.seqNum.value else 0;
    hide DispatchOutbound;
  }

  lemma {:induction false} CommandTakes(s: SessionView, cmd: Command, now: nat)
    requires s.WellFormed()
    ensures Takes(s, AcceptedBy(s, Apply(cmd, now)), [], OnCommand(s, cmd, now))
  {
    hide SendMessage, ReplayMessage, CompleteReplay, Greatest, GreatestEnd;
    NoneTaken();
    var s1 := s.(timers := s.timers.(nextOut := now + s.interval));
    match cmd
    case Send(msg) => SendTakes(s, msg, now);
    case Replay(msg) =>
    case ReplayComplete => CompleteTakes(s1);
    case Disconnect =>
  }

  lemma {:induction false} CompleteTakes(s: SessionView)
    requires s.WellFormed()
    ensures CompleteReplay(s).s.highestAccepted == s.highestAccepted
  {
    hide DispatchQueue;
  }

  lemma {:induction false} StepTakes(s: SessionView, input: Input)
    requires s.WellFormed()
    ensures Takes(s, AcceptedBy(s, input), AskedBy(s, input, s.highestSent), StepOf(s, input))
  {
    hide OnCommand, OnTimeout, HandleSessionMessage, StartTail, Named;
    assert Greatest([]) == 0 && GreatestEnd([]) == 0;
    hide Greatest, GreatestEnd;
    match input
    case Apply(cmd, now) => CommandTakes(s, cmd, now);
    case Receive(msg, now) =>
      HandleReserves(s.(timers := s.timers.(nextIn := now + s.interval, missed := 0)), msg, now);
    case PeerLogon(logon, now) => HandleReserves(s, logon, now);
    case Tick(now) =>
    case AskLogon =>
    case PeerClosed =>
  }

  lemma {:induction false} TakenKnown(interval: nat, nextIn: nat, now: nat, inputs: seq<Input>)
    ensures var s := Initial(interval, nextIn, now);
            After(s, inputs).highestAccepted
            == Max(Greatest(Accepted(s, inputs)), GreatestEnd(Picked(Log(s, inputs), RangeOf)))
  {
    hide StepOf, AcceptedBy, Picked, Greatest, GreatestEnd, AskedBy;
    var s := Initial(interval, nextIn, now);
    if inputs != [] {
      var before, last := inputs[..|inputs| - 1], inputs[|inputs| - 1];
      var mid := After(s, before);
      TakenKnown(interval, nextIn, now, before);
      StepTakes(mid, last);
      StepNames(mid, last);
      OneEach(mid, last);
      PickedAppend(Log(s, before), StepOf(mid, last).out, RangeOf);
      GreatestAppend(Accepted(s, before), AcceptedBy(mid, last));
      GreatestEndAppend(Picked(Log(s, before), RangeOf), Picked(StepOf(mid, last).out, RangeOf));
    } else {
      NoneTaken();
      PickedOne([], RangeOf);
    }
  }

  lemma {:induction false} NoneTaken()
    ensures Greatest([]) == 0 && GreatestEnd([]) == 0
  {
  }

  lemma {:induction false} OneEach(s: SessionView, input: Input)
    requires s.WellFormed()
    ensures |AcceptedBy(s, input)| <= 1 && |AskedBy(s, input, s.highestSent)| <= 1
  {
  }

  /**
   * Whatever a session started afresh has been through, a message given to it for sending is accepted if
   * and only if its number is beyond every number accepted before and every range promised to the peer,
   * and it is a Logon with the session's interval, none being on the wire, or any other message, with our
   * Logon on the wire and the peer's accepted.
   */
  lemma {:induction false} AcceptedWhen(interval: nat, nextIn: nat, now: nat, inputs: seq<Input>, msg: Message, t: nat)
    ensures var s := Initial(interval, nextIn, now);
            var ownLogon := OwnLogon(Log(s, inputs));
            StepOf(After(s, inputs), Apply(Send(msg), t)).outcome != Fail
            <==> && msg.seqNum.Some?
                 && msg.seqNum.value > Greatest(Accepted(s, inputs))
                 && msg.seqNum.value > GreatestEnd(Picked(Log(s, inputs), RangeOf))
                 && if msg.msgType.Logon? then !ownLogon && msg.heartBtInt == Some(interval)
                    else ownLogon && PeerLoggedOn(s, inputs)
  {
    hide Picked, OwnLogon, PeerLoggedOn, Greatest, GreatestEnd, Accepted, Log, After, HoldsFitting;
    ExchangeKnown(interval, nextIn, now, inputs);
    TakenKnown(interval, nextIn, now, inputs);
  }

  // ---------------------------------------------------------------------
  // Logons asked for
  // ---------------------------------------------------------------------

  function LogonAsked(o: Output): seq<Message> {
    if o.Raise? && o.event.AdminSendRequired? && o.event.msg.msgType.Logon? then [o.event.msg] else []
  }

  function AskedFor(interval: nat, input: Input): seq<Message> {
    if input.AskLogon? then [Blank(Logon).(heartBtInt := Some(interval))] else []
  }

  /** A Logon for each time the driver wants one. */
  function AllAskedFor(interval: nat, inputs: seq<Input>): seq<Message> {
    if inputs == [] then []
    else AllAskedFor(interval, inputs[..|inputs| - 1]) + AskedFor(interval, inputs[|inputs| - 1])
  }

  /** No Logon is asked for. */
  predicate NoneAsked(log: seq<Output>) {
    forall i :: 0 <= i < |log| ==> LogonAsked(log[i]) == []
  }

  lemma {:induction false} NoneAskedThen(a: seq<Output>, b: seq<Output>)
    requires NoneAsked(a) && NoneAsked(b)
    ensures NoneAsked(a + b)
  {
    hide LogonAsked;
  }

  lemma {:induction false} QueueAsksNone(s: SessionView, queue: seq<Message>)
    requires forall i :: 0 <= i < |queue| ==> queue[i].seqNum.Some?
    ensures NoneAsked(DispatchQueue(s, queue).out)
    decreases |queue|
  {
    if queue != [] {
      var first := DispatchOutbound(s, queue[0]);
      assert NoneAsked(first.out);
      hide NoneAsked, DispatchOutbound;
      QueueAsksNone(first.s, queue[1..]);
      NoneAskedThen(first.out, DispatchQueue(first.s, queue[1..]).out);
    } else {
      assert NoneAsked([]);
    }
  }

  lemma {:induction false} CompleteAsksNone(s: SessionView)
    requires s.WellFormed()
    ensures NoneAsked(CompleteReplay(s).out)
  {
    if s.replay.Some? {
      var fill := FillTrailing(s);
      var queue := DispatchQueue(fill.s.(replay := None), s.replay.value.queue);
      var sync := RequestSyncTestRequest(queue.s);
      assert NoneAsked(fill.out) && NoneAsked(sync.out);
      hide DispatchQueue, NoneAsked, FillTrailing;
      QueueAsksNone(fill.s.(replay := None), s.replay.value.queue);
      NoneAskedThen(fill.out, queue.out);
      NoneAskedThen(fill.out + queue.out, sync.out);
    } else {
      assert NoneAsked([]);
    }
  }

  lemma {:induction false} CommandAsksNone(s: SessionView, cmd: Command, now: nat)
    requires s.WellFormed()
    ensures NoneAsked(OnCommand(s, cmd, now).out)
  {
    hide CompleteReplay, SendMessage, ReplayMessage;
    var s1 := s.(timers := s.timers.(nextOut := now + s.interval));
    match cmd
    case Send(msg) => SendAsksNone(s, msg, now);
    case Replay(msg) => ReplayAsksNone(s1, msg);
    case ReplayComplete => CompleteAsksNone(s1);
    case Disconnect =>
  }

  lemma {:induction false} SendAsksNone(s: SessionView, msg: Message, now: nat)
    ensures NoneAsked(SendMessage(s, msg, now).out)
  {
  }

  lemma {:induction false} ReplayAsksNone(s: SessionView, msg: Message)
    requires s.WellFormed()
    ensures NoneAsked(ReplayMessage(s, msg).out)
  {
  }

  lemma {:induction false} TickAsksNone(s: SessionView, now: nat)
    ensures NoneAsked(OnTimeout(s, now).out)
  {
  }

  lemma {:induction false} StepAsksLogon(s: SessionView, input: Input)
    requires s.WellFormed()
    ensures Picked(StepOf(s, input).out, LogonAsked) == AskedFor(s.interval, input)
  {
    hide Picked, OnCommand, OnTimeout, HandleSessionMessage;
    match input
    case Apply(cmd, now) =>
      CommandAsksNone(s, cmd, now);
      NonePicked(OnCommand(s, cmd, now).out, LogonAsked);
    case Tick(now) =>
      TickAsksNone(s, now);
      NonePicked(OnTimeout(s, now).out, LogonAsked);
    case Receive(msg, now) =>
      HandleFrame(s.(timers := s.timers.(nextIn := now + s.interval, missed := 0)), msg, now);
      NonePicked(StepOf(s, input).out, LogonAsked);
    case PeerLogon(logon, now) =>
      HandleFrame(s, logon, now);
      NonePicked(StepOf(s, input).out, LogonAsked);
    case AskLogon => PickedOne(RequestLogon(s).out, LogonAsked);
    case PeerClosed => NonePicked(StepOf(s, input).out, LogonAsked);
  }

  /** Over any run, a Logon is asked for whenever the driver says so, with the session's interval, and never otherwise. */
  lemma {:induction false} LogonAskedWhenTold(interval: nat, nextIn: nat, now: nat, inputs: seq<Input>)
    ensures var s := Initial(interval, nextIn, now);
            Picked(Log(s, inputs), LogonAsked) == AllAskedFor(interval, inputs)
  {
    hide StepOf, Picked, LogonAsked, HoldsFitting, Greets;
    var s := Initial(interval, nextIn, now);
    if inputs == [] {
      PickedOne<Output, Message>([], LogonAsked);
    } else {
      var before, last := inputs[..|inputs| - 1], inputs[|inputs| - 1];
      LogonAskedWhenTold(interval, nextIn, now, before);
      ExchangeKnown(interval, nextIn, now, before);
      StepAsksLogon(After(s, before), last);
      PickedAppend(Log(s, before), StepOf(After(s, before), last).out, LogonAsked);
    }
  }
}
