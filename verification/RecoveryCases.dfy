/**
 * Two ways a gap comes about: the peer's Logon is already beyond the number expected, or a message
 * is, later in the session. Both lead to runs that recovery is proved for.
 */
module RecoveryCases {
  import opened FixMessage
  import opened Replaying
  import opened Session
  import opened SessionRuns
  import opened Outbound
  import opened Inbound
  import opened TwoPeers

  function NumberedLogon(interval: nat, n: nat): Message {
    LogonMessage(interval).(seqNum := Some(n))
  }

  /** Our Logon goes out, numbered `m`, and the peer's first one is taken. */
  function LoggingOn(interval: nat, m: nat): seq<Input> {
    [Apply(Send(NumberedLogon(interval, m)), 0), PeerLogon(NumberedLogon(interval, 1), 0)]
  }

  /** A session that has logged on with a Logon numbered `m`. */
  function LoggedOnWith(interval: nat, m: nat): SessionView {
    Initial(interval, 1, 0).(nextIn := 2, highestSent := m, highestAccepted := m, logonSent := true,
                             peerLogonReceived := true, recoveryTrId := Some(Helo(1)), testRequestSeq := 1)
  }

  function LogonLog(interval: nat, m: nat): seq<Output> {
    [Transmit(NumberedLogon(interval, m), New), Raise(RawMessageSent(NumberedLogon(interval, m)))]
    + [Raise(InboundAdvanced(2)), Raise(LoggedOn), Raise(AdminSendRequired(TestRequestMessage(Helo(1))))]
  }

  lemma {:induction false} RunOne(s: SessionView, a: Input)
    requires s.WellFormed()
    ensures After(s, [a]) == StepOf(s, a).s && Log(s, [a]) == StepOf(s, a).out
  {
    hide StepOf;
    assert [a][..0] == [];
  }

  lemma {:induction false} RunTwo(s: SessionView, a: Input, b: Input)
    requires s.WellFormed()
    ensures After(s, [a, b]) == StepOf(StepOf(s, a).s, b).s
    ensures Log(s, [a, b]) == StepOf(s, a).out + StepOf(StepOf(s, a).s, b).out
  {
    hide StepOf;
    assert [a, b][..1] == [a];
    RunOne(s, a);
  }

  /** A run in which nothing is offered for a replay asks for no time. */
  lemma {:induction false} NothingOffered(s: SessionView, inputs: seq<Input>)
    requires s.WellFormed() && forall i :: 0 <= i < |inputs| ==> !(inputs[i].Apply? && inputs[i].cmd.Replay?)
    ensures AllCarryTime(s, inputs)
  {
    hide StepOf;
    if inputs != [] {
      NothingOffered(s, inputs[..|inputs| - 1]);
    }
  }

  lemma {:induction false} SenderTimed(p: Sender)
    requires forall i :: 0 <= i < |p.earlier| ==> !(p.earlier[i].Apply? && p.earlier[i].cmd.Replay?)
    requires forall i :: 0 <= i < |p.before| ==> !(p.before[i].Apply? && p.before[i].cmd.Replay?)
    requires forall i :: 0 <= i < |p.after| ==> !(p.after[i].Apply? && p.after[i].cmd.Replay?)
    ensures p.Timed()
  {
    hide StepOf, AllCarryTime;
    NothingOffered(Initial(p.interval, p.nextIn, p.now), p.earlier);
    NothingOffered(p.Start(), p.before);
    NothingOffered(p.Serviced(), p.after);
  }

  lemma {:induction false} LogsOn(interval: nat, m: nat)
    requires m >= 1
    ensures After(Initial(interval, 1, 0), LoggingOn(interval, m)) == LoggedOnWith(interval, m)
    ensures Log(Initial(interval, 1, 0), LoggingOn(interval, m)) == LogonLog(interval, m)
  {
    var s := Initial(interval, 1, 0);
    var a, b := LoggingOn(interval, m)[0], LoggingOn(interval, m)[1];
    RunTwo(s, a, b);
    var s1 := s.(highestSent := m, highestAccepted := m, logonSent := true);
    assert StepOf(s, a).s == s1;
    var h := HandleSessionMessage(s1, NumberedLogon(interval, 1), 0);
    assert h == Step(s1.(nextIn := 2), [Raise(InboundAdvanced(2))], Continue);
    assert StepOf(s1, b).out == [Raise(InboundAdvanced(2)), Raise(LoggedOn), Raise(AdminSendRequired(TestRequestMessage(Helo(1))))];
  }

  function RequestFrom(n: nat): Input {
    Receive(ResendRequestMessage(n).(seqNum := Some(2)), 0)
  }

  /** A logged-on session is asked for everything from `n` on, and has nothing to replay. */
  lemma {:induction false} AnsweredByGapFill(s: SessionView, n: nat)
    requires s.WellFormed() && s.closing.None? && s.replay.None? && s.nextIn == 2 && !s.peerLogoutPending
    requires 1 <= n <= s.highestSent <= s.highestAccepted
    ensures var r := StepOf(s, RequestFrom(n));
            && r.outcome == Continue
            && r.s.replay == Some(ReplayView(n, s.highestSent, n, 0, []))
            && r.s == s.(nextIn := 3, rerequest := r.s.rerequest, timers := r.s.timers, replay := r.s.replay)
  {
    var msg := RequestFrom(n).msg;
    var s1 := s.(timers := s.timers.(nextIn := 0 + s.interval, missed := 0));
    var s2 := Advanced(s1, msg);
    assert OpenReplay(s2, msg).outcome == Continue;
    assert DispatchMessage(s2, msg, true, 0).outcome == Continue;
  }

  /** ... and fills the whole range at once. */
  lemma {:induction false} FilledAtOnce(s: SessionView, n: nat, end: nat)
    requires s.WellFormed() && s.closing.None? && s.replay == Some(ReplayView(n, end, n, 0, [])) && 1 <= n <= end == s.highestSent
    ensures var r, fill := StepOf(s, Apply(ReplayComplete, 0)), GapFillMessage(Range(n, end));
            && r.s.replay.None?
            && r.out == [Transmit(fill, GapFill), Raise(RawMessageSent(fill)),
                         Raise(AdminSendRequired(TestRequestMessage(Helo(s.testRequestSeq + 1))))]
  {
    var s1 := s.(timers := s.timers.(nextOut := 0 + s.interval));
    var fill := FillTrailing(s1);
    assert fill.out == [Transmit(GapFillMessage(Range(n, end)), GapFill), Raise(RawMessageSent(GapFillMessage(Range(n, end))))];
    QueueEmpty(fill.s.(replay := None));
    assert fill.out + [] == fill.out;
  }

  lemma {:induction false} OneSent(o: Output, rest: seq<Output>)
    requires o.Transmit? && forall i :: 0 <= i < |rest| ==> !rest[i].Transmit? && !Announces(rest[i])
    ensures Sent([o] + rest) == [OnWire(o.msg)]
    ensures SentNew([o] + rest) == if SendsNew(o) then [OnWire(o.msg)] else []
    ensures NoAnnouncements([o] + rest)
  {
    assert [o][..0] == [];
    SentAppend([o], rest);
    NothingSent(rest);
    assert Sent([o]) == [OnWire(o.msg)];
    assert [OnWire(o.msg)] + [] == [OnWire(o.msg)];
  }

  /** What arrives: a message numbered `m`, and a gap fill of everything from `n` through it. */
  predicate Arrives(inputs: seq<Input>, msg: Message, m: nat, n: nat) {
    && |inputs| == 2
    && Brought(inputs[0]) == Some(msg)
    && inputs[1] == Receive(GapFillMessage(Range(n, m)), 0)
  }

  lemma {:induction false} ArrivesIs(inputs: seq<Input>, msg: Message, m: nat, n: nat)
    requires Arrives(inputs, msg, m, n)
    ensures Received(inputs) == [OnWire(msg), GapFillMessage(Range(n, m))]
  {
    assert inputs[..1] == [inputs[0]] && inputs[..1][..0] == [];
    assert Received([inputs[0]]) == [OnWire(msg)];
  }

  /** A receiver that expects `n` accepts both. */
  lemma {:induction false} BothAccepted(s: SessionView, inputs: seq<Input>, msg: Message, m: nat, n: nat)
    requires s.WellFormed() && Open(s) && CursorOf(s) == Cursor(n, None) && 1 <= n < m
    requires Arrives(inputs, msg, m, n) && msg.seqNum == Some(m)
    requires msg.msgType.Logon? || (msg.msgType.Application? && inputs[0].Receive?)
    ensures Attentive(s, inputs)
  {
    var a := inputs[0];
    FirstAccepted(s, a, msg, m, n);
    hide StepOf;
    assert inputs[..1] == [a] && [a][..0] == [];
    RunOne(s, a);
    FillAccepted(StepOf(s, a).s, n, m);
    assert Attentive(s, []);
    assert Attentive(s, [a]);
  }

  lemma {:induction false} FirstAccepted(s: SessionView, a: Input, msg: Message, m: nat, n: nat)
    requires s.WellFormed() && Open(s) && CursorOf(s) == Cursor(n, None) && n < m
    requires Brought(a) == Some(msg) && msg.seqNum == Some(m)
    requires msg.msgType.Logon? || (msg.msgType.Application? && a.Receive?)
    ensures StepOf(s, a).s.nextIn == n && Open(StepOf(s, a).s) && StepOf(s, a).outcome == Continue
  {
    var t := s.(timers := s.timers.(nextIn := a.now + s.interval, missed := 0));
    assert HandleSessionMessage(s, msg, a.now).s == s.(rerequest := Some(m));
    assert HandleSessionMessage(t, msg, a.now).s == t.(rerequest := Some(m));
  }

  lemma {:induction false} FillAccepted(s: SessionView, n: nat, m: nat)
    requires s.WellFormed() && Open(s) && s.nextIn == n <= m
    ensures StepOf(s, Receive(GapFillMessage(Range(n, m)), 0)).outcome != Fail
  {
  }

  lemma {:induction false} WireIs(p: Sender, n: nat, m: nat, first: Message)
    requires p.Ahead() == [OnWire(first)] && first.seqNum == Some(m) && n < m
    requires !first.msgType.Logout? && !first.msgType.SequenceReset?
    requires Sent(Log(p.Serviced(), p.after)) == [GapFillMessage(Range(n, m))]
    ensures p.Wire()[0..] == [OnWire(first), GapFillMessage(Range(n, m))] && Ordinary(p.Wire()[0..])
  {
  }

  lemma {:induction false} LogonSent(interval: nat, m: nat)
    ensures Sent(LogonLog(interval, m)) == [OnWire(NumberedLogon(interval, m))] && NoAnnouncements(LogonLog(interval, m))
  {
    hide Sent, SentNew;
    var log := LogonLog(interval, m);
    OneSent(log[0], log[1..]);
    assert log == [log[0]] + log[1..];
  }

  function LogonSender(interval: nat, n: nat, m: nat): Sender {
    Sender(interval, 1, 0, [], LoggingOn(interval, m), RequestFrom(n), [Apply(ReplayComplete, 0)])
  }

  lemma {:induction false} LogonSenderAnswers(interval: nat, n: nat, m: nat)
    requires 1 <= n < m
    ensures var p := LogonSender(interval, n, m);
            && p.Answers(n, 0) && p.AtRequest().highestSent == m && p.Later() == []
            && p.Wire()[0..] == [OnWire(NumberedLogon(interval, m)), GapFillMessage(Range(n, m))]
  {
    hide StepOf, Sent, SentNew, Log, NoAnnouncements, GapFillMessage;
    LogsOn(interval, m);
    assert LogonSender(interval, n, m).Start() == Initial(interval, 1, 0);
    LogonSent(interval, m);
    SenderTimed(LogonSender(interval, n, m));
    GapFillAnswers(LogonSender(interval, n, m), n, m, NumberedLogon(interval, m));
  }

  /** The gap is found when the peer's Logon comes. */
  lemma {:induction false} GapAtLogon(interval: nat, n: nat, m: nat) returns (p: Sender, inputs: seq<Input>)
    requires 1 <= n < m
    ensures p.Answers(n, 0) && p.AtRequest().highestSent == m && p.Later() == []
    ensures inputs == [PeerLogon(NumberedLogon(interval, m), 0), Receive(GapFillMessage(Range(n, m)), 0)]
    ensures Received(inputs) == p.Wire()[0..] && Attentive(Initial(interval, n, 0), inputs)
  {
    hide Sender.Answers, Sender.Wire, Sender.AtRequest, Sender.Later, Attentive, Received, GapFillMessage;
    p := LogonSender(interval, n, m);
    inputs := [PeerLogon(NumberedLogon(interval, m), 0), Receive(GapFillMessage(Range(n, m)), 0)];
    LogonSenderAnswers(interval, n, m);
    ArrivesIs(inputs, NumberedLogon(interval, m), m, n);
    BothAccepted(Initial(interval, n, 0), inputs, NumberedLogon(interval, m), m, n);
  }

  /** The rest of an answer by one gap fill. */
  lemma {:induction false} GapFillAnswers(p: Sender, n: nat, m: nat, first: Message)
    requires p.request == RequestFrom(n) && p.after == [Apply(ReplayComplete, 0)] && p.Timed() && 1 <= n < m
    requires p.Start().replay.None? && p.Ahead() == [OnWire(first)] && NoAnnouncements(Log(p.Start(), p.before))
    requires first.seqNum == Some(m) && !first.msgType.Logout? && !first.msgType.SequenceReset?
    requires var s := p.AtRequest();
             && s.closing.None? && s.replay.None? && s.nextIn == 2 && !s.peerLogoutPending
             && s.highestSent == s.highestAccepted == m
    ensures p.Answers(n, 0) && p.Later() == []
    ensures p.Wire()[0..] == [OnWire(first), GapFillMessage(Range(n, m))]
  {
    hide StepOf, Sent, SentNew, Log, SessionRuns.After, NoAnnouncements, Ordinary, GapFillMessage;
    AnsweredByGapFill(p.AtRequest(), n);
    GapFillSent(p.Serviced(), p.after, n, m);
    WireIs(p, n, m, first);
  }

  lemma {:induction false} GapFillSent(s: SessionView, after: seq<Input>, n: nat, m: nat)
    requires s.WellFormed() && s.closing.None? && s.replay == Some(ReplayView(n, m, n, 0, [])) && 1 <= n <= m == s.highestSent
    requires after == [Apply(ReplayComplete, 0)]
    ensures SessionRuns.After(s, after).replay.None?
    ensures Sent(Log(s, after)) == [GapFillMessage(Range(n, m))] && SentNew(Log(s, after)) == []
    ensures NoAnnouncements(Log(s, after))
  {
    hide StepOf, Sent, SentNew;
    FilledAtOnce(s, n, m);
    RunOne(s, after[0]);
    var log := Log(s, after);
    OneSent(log[0], log[1..]);
    assert log == [log[0]] + log[1..];
  }

  function Order(m: nat): Message {
    Blank(Application("D")).(seqNum := Some(m))
  }

  function OrderSender(n: nat, m: nat): Sender {
    Sender(30, 1, 0, LoggingOn(30, 1), [Apply(Send(Order(m)), 0)], RequestFrom(n), [Apply(ReplayComplete, 0)])
  }

  lemma {:induction false} OrderSenderAnswers(n: nat, m: nat)
    requires 1 <= n < m
    ensures var p := OrderSender(n, m);
            && p.Answers(n, 0) && p.AtRequest().highestSent == m && p.Later() == []
            && p.Wire()[0..] == [OnWire(Order(m)), GapFillMessage(Range(n, m))]
  {
    hide StepOf, Sent, SentNew, Log, SessionRuns.After, NoAnnouncements, GapFillMessage;
    LogsOn(30, 1);
    OrderSent(OrderSender(n, m).before, Order(m), m);
    SenderTimed(OrderSender(n, m));
    GapFillAnswers(OrderSender(n, m), n, m, Order(m));
  }

  /** The gap is found later: a message numbered `m` comes to a session, in any state, that expects `n`. */
  lemma {:induction false} GapMidSession(receiver: SessionView, n: nat, m: nat) returns (p: Sender, inputs: seq<Input>)
    requires receiver.WellFormed() && Open(receiver) && CursorOf(receiver) == Cursor(n, None) && 1 <= n < m
    ensures p.Answers(n, 0) && p.AtRequest().highestSent == m && p.Later() == []
    ensures inputs == [Receive(Order(m), 0), Receive(GapFillMessage(Range(n, m)), 0)]
    ensures Received(inputs) == p.Wire()[0..] && Attentive(receiver, inputs)
  {
    hide Sender.Answers, Sender.Wire, Sender.AtRequest, Sender.Later, Attentive, Received, GapFillMessage;
    p := OrderSender(n, m);
    inputs := [Receive(Order(m), 0), Receive(GapFillMessage(Range(n, m)), 0)];
    OrderSenderAnswers(n, m);
    ArrivesIs(inputs, Order(m), m, n);
    BothAccepted(receiver, inputs, Order(m), m, n);
  }

  lemma {:induction false} OrderSent(before: seq<Input>, order: Message, m: nat)
    requires m > 1 && order == Order(m) && before == [Apply(Send(order), 0)]
    ensures var s := LoggedOnWith(30, 1);
            var r := SessionRuns.After(s, before);
            && Sent(Log(s, before)) == [OnWire(order)] && NoAnnouncements(Log(s, before))
            && r == s.(highestSent := m, highestAccepted := m, timers := r.timers)
  {
    hide Sent, SentNew;
    var s := LoggedOnWith(30, 1);
    RunOne(s, before[0]);
    assert StepOf(s, before[0]).out == [Transmit(order, New)] + [Raise(RawMessageSent(order))];
    OneSent(Transmit(order, New), [Raise(RawMessageSent(order))]);
  }
}
