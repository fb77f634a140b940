/**
 * The session state machine (session/state.rs): sequence checking, gap recovery, replay and
 * logout. `SessionView` and the functions on it say what each call does to the state and what it
 * emits; `SessionState` is the machine that does it, field by field.
 */
module Session {
  import opened FixMessage
  import opened Replaying

  /** Why a message went out: a newly sent one, a gap fill, or a retransmission. */
  datatype Role = New | GapFill | Resent

  datatype Event =
    | AdminSendRequired(msg: Message)
    | LoggedOn
    | RecoveryCompleted
    | RawMessageReceived(msg: Message)
    | RawMessageSent(msg: Message)
    | MessageReceived(seqNum: nat, msg: Message)
    | InboundAdvanced(nextIn: nat)
    | ResendRequested(beginSeqNo: nat, endSeqNo: nat)
    | Disconnected

  datatype Output = Transmit(msg: Message, role: Role) | Raise(event: Event)

  /** `Fail` is a protocol violation or an unreadable field. */
  datatype Outcome = Continue | Close | Fail

  datatype Command =
    | Send(msg: Message)
    | Replay(msg: Message)
    | ReplayComplete
    | Disconnect

  datatype Timers = Timers(nextOut: nat, nextIn: nat, missed: nat)

  datatype SessionView = SessionView(
    interval: nat,
    nextIn: nat,
    highestSent: nat,
    highestAccepted: nat,
    logonSent: bool,
    peerLogonReceived: bool,
    heartbeatRequested: bool,
    closing: Option<nat>,
    rerequest: Option<nat>,
    recoveryTrId: Option<TestReqId>,
    replay: Option<ReplayView>,
    peerLogoutPending: bool,
    timers: Timers,
    testRequestSeq: nat)
  {
    /** Every deferred message carries the number it was accepted under. */
    predicate WellFormed() {
      replay.Some? ==>
        && replay.value.Valid()
        && forall i :: 0 <= i < |replay.value.queue| ==> replay.value.queue[i].seqNum.Some?
    }
  }

  /** What a call does: the state it leaves, what it emits, and how it ends. */
  datatype Step = Step(s: SessionView, out: seq<Output>, outcome: Outcome)

  function Initial(interval: nat, nextIn: nat, now: nat): SessionView {
    SessionView(interval, nextIn, 0, 0, false, false, false, None, None, None, None, false,
                Timers(now + interval, now + interval, 0), 0)
  }

  // ---------------------------------------------------------------------
  // Admin requests
  // ---------------------------------------------------------------------

  function Requested(msg: Message): seq<Output> {
    [Raise(AdminSendRequired(msg))]
  }

  function LogonMessage(interval: nat): Message {
    Blank(Logon).(heartBtInt := Some(interval))
  }

  function TestRequestMessage(id: TestReqId): Message {
    Blank(TestRequest).(testReqId := Some(id))
  }

  function ResendRequestMessage(beginSeqNo: nat): Message {
    Blank(ResendRequest).(beginSeqNo := Some(beginSeqNo), endSeqNo := Some(0))
  }

  function LogoutMessage(text: string): Message {
    Blank(Logout).(text := text)
  }

  function GapFillMessage(range: Range): Message {
    Blank(SequenceReset).(seqNum := Some(range.first), gapFillFlag := Some(true),
                          newSeqNo := Some(range.last + 1))
  }

  function RequestLogon(s: SessionView): Step {
    Step(s, Requested(LogonMessage(s.interval)), Continue)
  }

  function RequestSyncTestRequest(s: SessionView): Step {
    var id := Helo(s.testRequestSeq + 1);
    Step(s.(testRequestSeq := s.testRequestSeq + 1, recoveryTrId := Some(id)),
         Requested(TestRequestMessage(id)), Continue)
  }

  function RequestLogout(s: SessionView, text: string, now: nat): (r: Step)
    ensures r.s == s.(closing := r.s.closing) && r.s.closing.Some? && r.outcome == Continue
  {
    if s.closing.Some? then Step(s, [], Continue)
    else Step(s.(closing := Some(now + s.interval)), Requested(LogoutMessage(text)), Continue)
  }

  const TOO_LOW := "Invalid MsgSeqNum; too low."
  const LOGOUT_RECEIVED := "Logout message received. Closing session."
  const DISCONNECT_REQUESTED := "Disconnect requested by application"
  const HEARTBEAT_TIMEOUT := "Heartbeat timeout"

  // ---------------------------------------------------------------------
  // Transmission
  // ---------------------------------------------------------------------

  /** A message transmitted in some role. */
  function Transmitted(s: SessionView, msg: Message, role: Role): Step
    requires msg.seqNum.Some?
  {
    Step(s.(highestSent := Max(s.highestSent, msg.seqNum.value)),
         [Transmit(msg, role), Raise(RawMessageSent(msg))], Continue)
  }

  /** A new message transmitted, with the flags its type sets or clears. */
  function DispatchOutbound(s: SessionView, msg: Message): (r: Step)
    requires msg.seqNum.Some?
    ensures r.s == s.(highestSent := Max(s.highestSent, msg.seqNum.value), logonSent := r.s.logonSent,
                      heartbeatRequested := r.s.heartbeatRequested)
    ensures r.outcome == if msg.msgType.Logout? then Close else Continue
  {
    var t := Transmitted(s, msg, New);
    match msg.msgType
    case Logon =>
      Step(t.s.(logonSent := true),
           t.out + if s.peerLogonReceived then [Raise(LoggedOn)] else [], Continue)
    case Heartbeat => Step(t.s.(heartbeatRequested := false), t.out, Continue)
    case Logout => Step(t.s, t.out, Close)
    case _ => t
  }

  /** Dispatch deferred messages in order, up to one that closes the session. */
  function DispatchQueue(s: SessionView, queue: seq<Message>): (r: Step)
    requires forall i :: 0 <= i < |queue| ==> queue[i].seqNum.Some?
    ensures r.s == s.(highestSent := r.s.highestSent, logonSent := r.s.logonSent,
                      heartbeatRequested := r.s.heartbeatRequested)
    ensures r.outcome != Fail
    decreases |queue|
  {
    if queue == [] then Step(s, [], Continue)
    else
      var first := DispatchOutbound(s, queue[0]);
      if first.outcome == Close then first
      else
        var rest := DispatchQueue(first.s, queue[1..]);
        Step(rest.s, first.out + rest.out, rest.outcome)
  }

  lemma {:induction false} QueueEmpty(s: SessionView)
    ensures DispatchQueue(s, []) == Step(s, [], Continue)
  {
  }

  lemma {:induction false} QueueUnfolds(s: SessionView, queue: seq<Message>, i: nat)
    requires i < |queue|
    requires forall i :: 0 <= i < |queue| ==> queue[i].seqNum.Some?
    ensures var first := DispatchOutbound(s, queue[i]);
            var rest := DispatchQueue(first.s, queue[i + 1..]);
            DispatchQueue(s, queue[i..])
            == if first.outcome == Close then first
               else Step(rest.s, first.out + rest.out, rest.outcome)
  {
    hide DispatchOutbound;
    assert queue[i..][1..] == queue[i + 1..];
  }

  /** Why a message the application numbered is refused, if it is. */
  predicate Refused(s: SessionView, msg: Message) {
    || msg.seqNum.None?
    || msg.seqNum.value == 0
    || (if msg.msgType.Logon? then s.logonSent || msg.heartBtInt != Some(s.interval)
        else !s.logonSent || !s.peerLogonReceived)
    || msg.seqNum.value <= s.highestAccepted
  }

  function SendMessage(s: SessionView, msg: Message, now: nat): (r: Step)
    ensures s.WellFormed() ==> r.s.WellFormed()
  {
    if Refused(s, msg) then Step(s, [], Fail)
    else
      var timers := if msg.IsAdmin() then s.timers else s.timers.(nextOut := now + s.interval);
      var s1 := s.(highestAccepted := msg.seqNum.value, timers := timers);
      if s.replay.Some? then
        Step(s1.(replay := Some(s.replay.value.(queue := s.replay.value.queue + [msg]))), [], Continue)
      else DispatchOutbound(s1, msg)
  }

  function SendGapFill(s: SessionView, range: Range): Step {
    Transmitted(s, GapFillMessage(range), GapFill)
  }

  // ---------------------------------------------------------------------
  // Replay
  // ---------------------------------------------------------------------

  function ResentMessage(msg: Message): Message {
    msg.(origSendingTime := if msg.origSendingTime.Some? then msg.origSendingTime else msg.sendingTime,
         sendingTime := None, possDup := true)
  }

  /** The gap fill owed, if any, and then the message, marked as a duplicate. */
  function Retransmission(s: SessionView, msg: Message, gapFill: Option<Range>): (r: Step)
    requires msg.seqNum.Some?
    ensures r.s == s.(highestSent := r.s.highestSent)
  {
    var fill := if gapFill.Some? then SendGapFill(s, gapFill.value) else Step(s, [], Continue);
    var sent := Transmitted(fill.s, ResentMessage(msg), Resent);
    Step(sent.s, fill.out + sent.out, Continue)
  }

  function ReplayMessage(s: SessionView, msg: Message): (r: Step)
    requires s.WellFormed()
    ensures r.s == s.(highestSent := r.s.highestSent, replay := r.s.replay) && r.s.WellFormed()
  {
    if msg.seqNum.None? || s.replay.None? then Step(s, [], Fail)
    else
      var n, gapFilled := msg.seqNum.value, msg.GapFilledInReplay();
      var s1 := s.(replay := Some(OfferView(s.replay.value, n, gapFilled)));
      match OfferStep(s.replay.value, n, gapFilled)
      case Skip => Step(s1, [], Continue)
      case Absorb => Step(s1, [], Continue)
      case Retransmit(gapFill) =>
        if msg.origSendingTime.None? && msg.sendingTime.None? then Step(s1, [], Fail)
        else Retransmission(s1, msg, gapFill)
  }

  function FillTrailing(s: SessionView): Step
    requires s.WellFormed() && s.replay.Some?
  {
    var trailing := TrailingGapFill(s.replay.value);
    if trailing.Some? then SendGapFill(s, trailing.value) else Step(s, [], Continue)
  }

  function CompleteReplay(s: SessionView): (r: Step)
    requires s.WellFormed()
    ensures r.s.replay.None?
  {
    if s.replay.None? then Step(s, [], Fail)
    else
      var fill := FillTrailing(s);
      var queue := DispatchQueue(fill.s.(replay := None), s.replay.value.queue);
      if queue.outcome == Close then Step(queue.s, fill.out + queue.out, Close)
      else if queue.s.closing.Some? then Step(queue.s, fill.out + queue.out, Continue)
      else
        var sync := RequestSyncTestRequest(queue.s);
        Step(sync.s, fill.out + queue.out + sync.out, Continue)
  }

  function OnCommand(s: SessionView, cmd: Command, now: nat): (r: Step)
    requires s.WellFormed()
    ensures r.s.WellFormed()
  {
    match cmd
    case Send(msg) => SendMessage(s, msg, now)
    case Replay(msg) => ReplayMessage(s.(timers := s.timers.(nextOut := now + s.interval)), msg)
    case ReplayComplete => CompleteReplay(s.(timers := s.timers.(nextOut := now + s.interval)))
    case Disconnect => RequestLogout(s, DISCONNECT_REQUESTED, now)
  }

  function HeartbeatDue(s: SessionView, now: nat): (r: Step)
    ensures r.s == s.(timers := r.s.timers, heartbeatRequested := r.s.heartbeatRequested)
  {
    if now < s.timers.nextOut then Step(s, [], Continue)
    else
      Step(s.(timers := s.timers.(nextOut := now + s.interval), heartbeatRequested := true),
           if s.heartbeatRequested then [] else Requested(Blank(Heartbeat)), Continue)
  }

  function HeartbeatMissed(s: SessionView, now: nat): (r: Step)
    ensures r.s == s.(timers := r.s.timers, testRequestSeq := r.s.testRequestSeq, closing := r.s.closing)
  {
    if now < s.timers.nextIn then Step(s, [], Continue)
    else
      var missed := s.timers.missed + 1;
      var s1 := s.(timers := s.timers.(nextIn := now + s.interval, missed := missed));
      if missed == 1 then Step(s1, [], Continue)
      else if missed == 2 then
        var id := Hb(s.testRequestSeq + 1);
        Step(s1.(testRequestSeq := s.testRequestSeq + 1), Requested(TestRequestMessage(id)), Continue)
      else RequestLogout(s1, HEARTBEAT_TIMEOUT, now)
  }

  function OnTimeout(s: SessionView, now: nat): (r: Step)
    ensures r.s == s.(timers := r.s.timers, heartbeatRequested := r.s.heartbeatRequested,
                      testRequestSeq := r.s.testRequestSeq, closing := r.s.closing)
  {
    if s.closing.Some? then Step(s, [], if now >= s.closing.value then Close else Continue)
    else
      var beat := HeartbeatDue(s, now);
      var miss := HeartbeatMissed(beat.s, now);
      Step(miss.s, beat.out + miss.out, Continue)
  }

  // ---------------------------------------------------------------------
  // Inbound protocol handling
  // ---------------------------------------------------------------------

  /** A Heartbeat that echoes the synchronisation TestRequest completes recovery. */
  function SettleHeartbeat(s: SessionView, msg: Message): (r: Step)
    ensures r.s == s.(recoveryTrId := r.s.recoveryTrId) && r.outcome == Continue
  {
    if msg.testReqId.Some? && msg.testReqId == s.recoveryTrId then
      Step(s.(recoveryTrId := None), [Raise(RecoveryCompleted)], Continue)
    else Step(s, [], Continue)
  }

  /** The replay a request opens; `highestAccepted` moves past its range. */
  function OpenReplay(s: SessionView, msg: Message): (r: Step)
    ensures r.s == s.(highestAccepted := r.s.highestAccepted, replay := r.s.replay)
    ensures r.outcome != Close
    ensures s.WellFormed() ==> r.s.WellFormed()
  {
    if msg.beginSeqNo.None? || msg.endSeqNo.None? || s.replay.Some? then Step(s, [], Fail)
    else
      var replay := StartView(msg.beginSeqNo.value, msg.endSeqNo.value, s.highestSent + 1);
      if replay.None? then Step(s, [], Fail)
      else
        Step(s.(highestAccepted := Max(s.highestAccepted, replay.value.endSeqNo), replay := replay),
             [Raise(ResendRequested(replay.value.beginSeqNo, replay.value.endSeqNo))], Continue)
  }

  /** What a session-level message prompts. */
  function Prompted(s: SessionView, msg: Message, now: nat): (r: Step)
    ensures r.s == s.(closing := r.s.closing, recoveryTrId := r.s.recoveryTrId,
                      highestAccepted := r.s.highestAccepted, replay := r.s.replay)
    ensures r.outcome != Close
    ensures s.WellFormed() ==> r.s.WellFormed()
  {
    match msg.msgType
    case Heartbeat => SettleHeartbeat(s, msg)
    case TestRequest =>
      if msg.testReqId.None? then Step(s, [], Fail)
      else Step(s, Requested(Blank(Heartbeat).(testReqId := msg.testReqId)), Continue)
    case ResendRequest => OpenReplay(s, msg)
    case Logout => RequestLogout(s, LOGOUT_RECEIVED, now)
    case _ => Step(s, [], Continue)
  }

  /** Messages the application is handed: its own, and Rejects. */
  predicate Delivered(msg: Message) {
    msg.msgType.Reject? || msg.msgType.Application?
  }

  /** The effect of a message's type; outside the sequence, without the notice that the count moved. */
  function DispatchMessage(s: SessionView, msg: Message, inSequence: bool, now: nat): (r: Step)
    requires msg.seqNum.Some?
    ensures r.s == s.(closing := r.s.closing, recoveryTrId := r.s.recoveryTrId,
                      highestAccepted := r.s.highestAccepted, replay := r.s.replay)
    ensures r.outcome != Close
    ensures s.WellFormed() ==> r.s.WellFormed()
  {
    if Delivered(msg) then Step(s, [Raise(MessageReceived(msg.seqNum.value, msg))], Continue)
    else
      var acted := Prompted(s, msg, now);
      if acted.outcome == Fail || !inSequence then acted
      else Step(acted.s, acted.out + [Raise(InboundAdvanced(s.nextIn))], Continue)
  }

  /** One open-ended request per gap, from `nextIn`. */
  function AskForGap(s: SessionView, msg: Message): (r: Step)
    requires msg.seqNum.Some?
    ensures r.s == s.(rerequest := r.s.rerequest) && r.s.rerequest.Some?
  {
    if s.rerequest.Some? then Step(s, [], Continue)
    else Step(s.(rerequest := Some(msg.seqNum.value)), Requested(ResendRequestMessage(s.nextIn)), Continue)
  }

  /** A message numbered beyond the one expected. Only a ResendRequest and a Logout are acted on. */
  function HandleGap(s: SessionView, msg: Message, now: nat): (r: Step)
    requires msg.seqNum.Some?
    ensures s.WellFormed() ==> r.s.WellFormed()
  {
    var ask := AskForGap(s, msg);
    match msg.msgType
    case ResendRequest =>
      var d := DispatchMessage(ask.s, msg, false, now);
      Step(d.s, ask.out + d.out, d.outcome)
    case Logout => Step(ask.s.(peerLogoutPending := true), ask.out, Continue)
    case _ => ask
  }

  /** The number expected after an in-sequence message. */
  function NumberAfter(msg: Message): nat
    requires msg.seqNum.Some?
    requires msg.msgType.SequenceReset? ==> msg.newSeqNo.Some?
  {
    if msg.msgType.SequenceReset? then msg.newSeqNo.value else msg.seqNum.value + 1
  }

  /** The expected number moves on, and a gap that this closes is closed. */
  function Advanced(s: SessionView, msg: Message): SessionView
    requires msg.seqNum.Some?
    requires msg.msgType.SequenceReset? ==> msg.newSeqNo.Some?
  {
    var closed := s.rerequest.Some? && NumberAfter(msg) >= s.rerequest.value;
    s.(nextIn := NumberAfter(msg), rerequest := if closed then None else s.rerequest)
  }

  function HandleInSequence(s: SessionView, msg: Message, now: nat): (r: Step)
    requires msg.seqNum.Some?
    requires msg.msgType.SequenceReset? ==> msg.newSeqNo.Some?
    ensures s.WellFormed() ==> r.s.WellFormed()
  {
    if NumberAfter(msg) <= msg.seqNum.value then Step(s, [], Fail)
    else
      var d := DispatchMessage(Advanced(s, msg), msg, true, now);
      if d.outcome != Continue then d
      else if d.s.peerLogoutPending && d.s.rerequest.None? then
        var logout := RequestLogout(d.s, LOGOUT_RECEIVED, now);
        Step(logout.s, d.out + logout.out, Continue)
      else d
  }

  function HandleSessionMessage(s: SessionView, msg: Message, now: nat): (r: Step)
    ensures s.WellFormed() ==> r.s.WellFormed()
  {
    if msg.seqNum.None? then Step(s, [], Fail)
    else if msg.msgType.SequenceReset? && (msg.gapFillFlag != Some(true) || msg.newSeqNo.None?) then
      Step(s, [], Fail)
    else if msg.seqNum.value == s.nextIn then HandleInSequence(s, msg, now)
    else if msg.seqNum.value > s.nextIn then HandleGap(s, msg, now)
    else RequestLogout(s, TOO_LOW, now)
  }

  function OnMessage(s: SessionView, msg: Message, now: nat): (r: Step)
    ensures s.WellFormed() ==> r.s.WellFormed()
  {
    var s1 := s.(timers := s.timers.(nextIn := now + s.interval, missed := 0));
    var received := [Raise(RawMessageReceived(msg))];
    if s.closing.Some? then Step(s1, received, Continue)
    else
      var h := HandleSessionMessage(s1, msg, now);
      Step(h.s, received + h.out, h.outcome)
  }

  /** The end of `Start`. */
  function StartTail(s: SessionView): (r: Step)
    ensures r.s == s.(peerLogonReceived := true, testRequestSeq := r.s.testRequestSeq, recoveryTrId := r.s.recoveryTrId)
  {
    var s1 := s.(peerLogonReceived := true);
    if s1.closing.Some? then Step(s1, [], Continue)
    else
      var sync := RequestSyncTestRequest(s1);
      Step(sync.s, (if s1.logonSent then [Raise(LoggedOn)] else []) + sync.out, Continue)
  }

  /** The peer's Logon taken in sequence, and unless that ended things, the exchange that follows it. */
  function Start(s: SessionView, logon: Message, now: nat): (r: Step)
    ensures s.WellFormed() ==> r.s.WellFormed()
  {
    var h := HandleSessionMessage(s, logon, now);
    if h.outcome != Continue then h
    else
      var tail := StartTail(h.s);
      Step(tail.s, h.out + tail.out, Continue)
  }

  // ---------------------------------------------------------------------
  // The machine
  // ---------------------------------------------------------------------

  /** Collects what a session emits. */
  class SessionOutput {
    var log: seq<Output>

    constructor ()
      ensures log == []
    {
      log := [];
    }

    method Transmit(msg: Message, role: Role)
      modifies this
      ensures log == old(log) + [Output.Transmit(msg, role)]
    {
      log := log + [Output.Transmit(msg, role)];
    }

    method Event(event: Event)
      modifies this
      ensures log == old(log) + [Raise(event)]
    {
      log := log + [Raise(event)];
    }
  }

  class SessionState {
    const interval: nat
    var nextIn: nat
    var highestSent: nat
    var highestAccepted: nat
    var logonSent: bool
    var peerLogonReceived: bool
    var heartbeatRequested: bool
    var closing: Option<nat>
    var rerequest: Option<nat>
    var recoveryTrId: Option<TestReqId>
    var replay: Replaying.Replay?
    var peerLogoutPending: bool
    var timers: Timers
    var testRequestSeq: nat

    ghost function View(): SessionView
      reads this, replay
    {
      SessionView(interval, nextIn, highestSent, highestAccepted, logonSent, peerLogonReceived,
                  heartbeatRequested, closing, rerequest, recoveryTrId,
                  if replay == null then None else Some(replay.View()),
                  peerLogoutPending, timers, testRequestSeq)
    }

    ghost predicate Valid()
      reads this, replay
    {
      View().WellFormed()
    }

    /** The call reached `step`: this state, these outputs after `before`, this outcome. */
    ghost predicate Reached(step: Step, before: seq<Output>, out: SessionOutput, outcome: Outcome)
      reads this, replay, out
    {
      View() == step.s && out.log == before + step.out && outcome == step.outcome
    }

    constructor (interval: nat, nextIn: nat, now: nat)
      ensures Valid() && View() == Initial(interval, nextIn, now)
      ensures replay == null
    {
      this.interval, this.nextIn := interval, nextIn;
      highestSent, highestAccepted := 0, 0;
      logonSent, peerLogonReceived, heartbeatRequested := false, false, false;
      closing, rerequest, recoveryTrId, replay := None, None, None, null;
      peerLogoutPending, testRequestSeq := false, 0;
      timers := Timers(now + interval, now + interval, 0);
    }

    method AskForLogon(out: SessionOutput) returns (outcome: Outcome)
      requires Valid()
      modifies out
      ensures Valid() && Reached(RequestLogon(View()), old(out.log), out, outcome)
    {
      out.Event(AdminSendRequired(LogonMessage(interval)));
      return Continue;
    }

    method AskForSyncTestRequest(out: SessionOutput)
      modifies this`testRequestSeq, this`recoveryTrId, out
      ensures Reached(RequestSyncTestRequest(old(View())), old(out.log), out, Continue)
    {
      testRequestSeq := testRequestSeq + 1;
      var id := Helo(testRequestSeq);
      recoveryTrId := Some(id);
      out.Event(AdminSendRequired(TestRequestMessage(id)));
    }

    method AskForLogout(text: string, now: nat, out: SessionOutput)
      modifies this`closing, out
      ensures Reached(RequestLogout(old(View()), text, now), old(out.log), out, Continue)
    {
      if closing.Some? {
        return;
      }
      closing := Some(now + interval);
      out.Event(AdminSendRequired(LogoutMessage(text)));
    }

    method Hand(msg: Message, role: Role, out: SessionOutput)
      requires msg.seqNum.Some?
      modifies this`highestSent, out
      ensures Reached(Transmitted(old(View()), msg, role), old(out.log), out, Continue)
    {
      highestSent := Max(highestSent, msg.seqNum.value);
      out.Transmit(msg, role);
      out.Event(RawMessageSent(msg));
    }

    method Dispatch(msg: Message, out: SessionOutput) returns (outcome: Outcome)
      requires msg.seqNum.Some?
      modifies this`highestSent, this`logonSent, this`heartbeatRequested, out
      ensures Reached(DispatchOutbound(old(View()), msg), old(out.log), out, outcome)
    {
      Hand(msg, New, out);
      match msg.msgType {
        case Logon =>
          logonSent := true;
          if peerLogonReceived {
            out.Event(LoggedOn);
          }
        case Heartbeat =>
          heartbeatRequested := false;
        case Logout =>
          return Close;
        case _ =>
      }
      return Continue;
    }

    /** `SendMessage`, on the fields. */
    method SendNumbered(msg: Message, now: nat, out: SessionOutput) returns (outcome: Outcome)
      requires Valid()
      modifies this, replay, out
      ensures Valid() && replay == old(replay)
      ensures Reached(SendMessage(old(View()), msg, now), old(out.log), out, outcome)
    {
      hide DispatchOutbound;
      if msg.seqNum.None? {
        return Fail;
      }
      var n := msg.seqNum.value;
      if n == 0 {
        return Fail;
      }
      if msg.msgType.Logon? {
        if logonSent || msg.heartBtInt != Some(interval) {
          return Fail;
        }
      } else if !logonSent {
        return Fail;
      } else if !peerLogonReceived {
        return Fail;
      }
      if n <= highestAccepted {
        return Fail;
      }
      highestAccepted := n;
      if !msg.IsAdmin() {
        timers := timers.(nextOut := now + interval);
      }
      if replay != null {
        replay.Defer(msg);
        return Continue;
      }
      outcome := Dispatch(msg, out);
    }

    method FillGap(range: Range, out: SessionOutput)
      modifies this`highestSent, out
      ensures Reached(SendGapFill(old(View()), range), old(out.log), out, Continue)
    {
      Hand(GapFillMessage(range), GapFill, out);
    }

    method OfferForReplay(msg: Message, out: SessionOutput) returns (outcome: Outcome)
      requires Valid()
      modifies this`highestSent, replay, out
      ensures Valid() && replay == old(replay)
      ensures Reached(ReplayMessage(old(View()), msg), old(out.log), out, outcome)
    {
      if msg.seqNum.None? {
        return Fail;
      }
      if replay == null {
        return Fail;
      }
      var step := replay.Offer(msg.seqNum.value, msg.GapFilledInReplay());
      if step.Skip? || step.Absorb? {
        return Continue;
      }
      if msg.origSendingTime.None? && msg.sendingTime.None? {
        return Fail;
      }
      if step.gapFill.Some? {
        FillGap(step.gapFill.value, out);
      }
      Hand(ResentMessage(msg), Resent, out);
      return Continue;
    }

    /** Send the deferred messages in order, up to one that closes the session. */
    method DispatchAll(queue: seq<Message>, out: SessionOutput) returns (outcome: Outcome)
      requires forall i :: 0 <= i < |queue| ==> queue[i].seqNum.Some?
      modifies this`highestSent, this`logonSent, this`heartbeatRequested, out
      ensures Reached(DispatchQueue(old(View()), queue), old(out.log), out, outcome)
    {
      hide DispatchOutbound, DispatchQueue;
      ghost var all := DispatchQueue(View(), queue);
      ghost var done: seq<Output> := [];
      assert queue[0..] == queue;
      var i := 0;
      while i < |queue|
        invariant 0 <= i <= |queue|
        invariant out.log == old(out.log) + done
        invariant DispatchQueue(View(), queue[i..]).s == all.s
        invariant all.out == done + DispatchQueue(View(), queue[i..]).out
        invariant DispatchQueue(View(), queue[i..]).outcome == all.outcome
      {
        QueueUnfolds(View(), queue, i);
        ghost var first := DispatchOutbound(View(), queue[i]);
        outcome := Dispatch(queue[i], out);
        done := done + first.out;
        if outcome == Close {
          return;
        }
        i := i + 1;
      }
      QueueEmpty(View());
      return Continue;
    }

    /** `FillTrailing`, and the replay dropped; its queue is handed back. */
    method EndReplay(out: SessionOutput) returns (queue: seq<Message>)
      requires Valid() && replay != null
      modifies this`highestSent, this`replay, replay, out
      ensures replay == null && queue == old(replay.queue)
      ensures View() == FillTrailing(old(View())).s.(replay := None)
      ensures out.log == old(out.log) + FillTrailing(old(View())).out
    {
      queue := replay.TakeQueue();
      var trailing := replay.Trailing();
      if trailing.Some? {
        FillGap(trailing.value, out);
      }
      replay := null;
    }

    method FinishReplay(out: SessionOutput) returns (outcome: Outcome)
      requires Valid()
      modifies this, replay, out
      ensures Valid()
      ensures replay == null
      ensures Reached(CompleteReplay(old(View())), old(out.log), out, outcome)
    {
      hide DispatchQueue, RequestSyncTestRequest, FillTrailing;
      if replay == null {
        return Fail;
      }
      var queue := EndReplay(out);
      outcome := DispatchAll(queue, out);
      if outcome == Close {
        return;
      }
      if closing.None? {
        AskForSyncTestRequest(out);
      }
      return Continue;
    }

    /** Feed an application command. */
    method Command(cmd: Command, now: nat, out: SessionOutput) returns (outcome: Outcome)
      requires Valid()
      modifies this, replay, out
      ensures Valid() && (replay == old(replay) || replay == null)
      ensures Reached(OnCommand(old(View()), cmd, now), old(out.log), out, outcome)
    {
      hide SendMessage, ReplayMessage, CompleteReplay, RequestLogout;
      match cmd {
        case Send(msg) =>
          outcome := SendNumbered(msg, now, out);
        case Replay(msg) =>
          timers := timers.(nextOut := now + interval);
          outcome := OfferForReplay(msg, out);
        case ReplayComplete =>
          timers := timers.(nextOut := now + interval);
          outcome := FinishReplay(out);
        case Disconnect =>
          AskForLogout(DISCONNECT_REQUESTED, now, out);
          outcome := Continue;
      }
    }

    /** The outbound heartbeat is due: ask for one unless one is already on its way. */
    method BeatIfDue(now: nat, out: SessionOutput)
      modifies this`timers, this`heartbeatRequested, out
      ensures View() == HeartbeatDue(old(View()), now).s
      ensures out.log == old(out.log) + HeartbeatDue(old(View()), now).out
    {
      if now >= timers.nextOut {
        timers := timers.(nextOut := now + interval);
        if !heartbeatRequested {
          heartbeatRequested := true;
          out.Event(AdminSendRequired(Blank(Heartbeat)));
        }
      }
    }

    /** Nothing has come from the peer for an interval: count it, and escalate. */
    method MissIfDue(now: nat, out: SessionOutput)
      modifies this`timers, this`testRequestSeq, this`closing, out
      ensures View() == HeartbeatMissed(old(View()), now).s
      ensures out.log == old(out.log) + HeartbeatMissed(old(View()), now).out
    {
      if now >= timers.nextIn {
        timers := timers.(nextIn := now + interval, missed := timers.missed + 1);
        if timers.missed == 1 {
        } else if timers.missed == 2 {
          testRequestSeq := testRequestSeq + 1;
          out.Event(AdminSendRequired(TestRequestMessage(Hb(testRequestSeq))));
        } else {
          AskForLogout(HEARTBEAT_TIMEOUT, now, out);
        }
      }
    }

    /** Advance time. */
    method Timeout(now: nat, out: SessionOutput) returns (outcome: Outcome)
      requires Valid()
      modifies this, out
      ensures Valid() && replay == old(replay)
      ensures Reached(OnTimeout(old(View()), now), old(out.log), out, outcome)
    {
      if closing.Some? {
        return if now >= closing.value then Close else Continue;
      }
      BeatIfDue(now, out);
      MissIfDue(now, out);
      return Continue;
    }

    method ActOnResendRequest(msg: Message, out: SessionOutput) returns (outcome: Outcome)
      modifies this`highestAccepted, this`replay, out
      ensures replay == old(replay) || fresh(replay)
      ensures Reached(OpenReplay(old(View()), msg), old(out.log), out, outcome)
    {
      if msg.beginSeqNo.None? || msg.endSeqNo.None? {
        return Fail;
      }
      if replay != null {
        return Fail;
      }
      var r := Replaying.Replay.Start(msg.beginSeqNo.value, msg.endSeqNo.value, highestSent + 1);
      if r == null {
        return Fail;
      }
      highestAccepted := Max(highestAccepted, r.endSeqNo);
      replay := r;
      out.Event(ResendRequested(r.beginSeqNo, r.endSeqNo));
      return Continue;
    }

    method ActOnHeartbeat(msg: Message, out: SessionOutput)
      modifies this`recoveryTrId, out
      ensures Reached(SettleHeartbeat(old(View()), msg), old(out.log), out, Continue)
    {
      if msg.testReqId.Some? && recoveryTrId.Some? && msg.testReqId.value == recoveryTrId.value {
        recoveryTrId := None;
        out.Event(RecoveryCompleted);
      }
    }

    method Prompt(msg: Message, now: nat, out: SessionOutput) returns (outcome: Outcome)
      modifies this, out
      ensures replay == old(replay) || fresh(replay)
      ensures Reached(Prompted(old(View()), msg, now), old(out.log), out, outcome)
    {
      hide OpenReplay, RequestLogout, SettleHeartbeat;
      match msg.msgType {
        case Heartbeat =>
          ActOnHeartbeat(msg, out);
        case TestRequest =>
          if msg.testReqId.None? {
            return Fail;
          }
          out.Event(AdminSendRequired(Blank(Heartbeat).(testReqId := msg.testReqId)));
        case ResendRequest =>
          outcome := ActOnResendRequest(msg, out);
          return;
        case Logout =>
          AskForLogout(LOGOUT_RECEIVED, now, out);
        case _ =>
      }
      return Continue;
    }

    method Act(msg: Message, inSequence: bool, now: nat, out: SessionOutput) returns (outcome: Outcome)
      requires msg.seqNum.Some?
      modifies this, out
      ensures replay == old(replay) || fresh(replay)
      ensures Reached(DispatchMessage(old(View()), msg, inSequence, now), old(out.log), out, outcome)
    {
      hide Prompted;
      if Delivered(msg) {
        out.Event(MessageReceived(msg.seqNum.value, msg));
        return Continue;
      }
      outcome := Prompt(msg, now, out);
      if outcome == Continue && inSequence {
        out.Event(InboundAdvanced(nextIn));
      }
    }

    method InGap(msg: Message, now: nat, out: SessionOutput) returns (outcome: Outcome)
      requires msg.seqNum.Some?
      modifies this, out
      ensures replay == old(replay) || fresh(replay)
      ensures Reached(HandleGap(old(View()), msg, now), old(out.log), out, outcome)
    {
      hide DispatchMessage;
      if rerequest.None? {
        rerequest := Some(msg.seqNum.value);
        out.Event(AdminSendRequired(ResendRequestMessage(nextIn)));
      }
      assert Reached(AskForGap(old(View()), msg), old(out.log), out, Continue);
      hide AskForGap;
      match msg.msgType {
        case ResendRequest =>
          outcome := Act(msg, false, now, out);
          return;
        case Logout =>
          peerLogoutPending := true;
          return Continue;
        case _ =>
          return Continue;
      }
    }

    /** Move the expected number on, to the gap fill's if there is one. */
    method Advance(msg: Message, gapFillTo: Option<nat>) returns (ok: bool)
      requires msg.seqNum == Some(nextIn)
      requires gapFillTo == if msg.msgType.SequenceReset? then msg.newSeqNo else None
      requires msg.msgType.SequenceReset? ==> msg.newSeqNo.Some?
      modifies this`nextIn, this`rerequest
      ensures ok == (NumberAfter(msg) > msg.seqNum.value)
      ensures View() == if ok then Advanced(old(View()), msg) else old(View())
    {
      if gapFillTo.Some? {
        if gapFillTo.value <= nextIn {
          return false;
        }
        nextIn := gapFillTo.value;
      } else {
        nextIn := nextIn + 1;
      }
      if rerequest.Some? && nextIn >= rerequest.value {
        rerequest := None;
      }
      return true;
    }

    method InSequence(msg: Message, gapFillTo: Option<nat>, now: nat, out: SessionOutput)
      returns (outcome: Outcome)
      requires msg.seqNum == Some(nextIn)
      requires gapFillTo == if msg.msgType.SequenceReset? then msg.newSeqNo else None
      requires msg.msgType.SequenceReset? ==> msg.newSeqNo.Some?
      modifies this, out
      ensures replay == old(replay) || fresh(replay)
      ensures Reached(HandleInSequence(old(View()), msg, now), old(out.log), out, outcome)
    {
      hide DispatchMessage, RequestLogout, Advanced, NumberAfter;
      var ok := Advance(msg, gapFillTo);
      if !ok {
        return Fail;
      }
      outcome := Act(msg, true, now, out);
      if outcome == Continue && peerLogoutPending && rerequest.None? {
        AskForLogout(LOGOUT_RECEIVED, now, out);
      }
    }

    method Handle(msg: Message, now: nat, out: SessionOutput) returns (outcome: Outcome)
      requires Valid()
      modifies this, out
      ensures Valid() && (replay == old(replay) || fresh(replay))
      ensures Reached(HandleSessionMessage(old(View()), msg, now), old(out.log), out, outcome)
    {
      if msg.seqNum.None? {
        return Fail;
      }
      var n := msg.seqNum.value;
      var gapFillTo: Option<nat> := None;
      if msg.msgType.SequenceReset? {
        if msg.gapFillFlag != Some(true) || msg.newSeqNo.None? {
          return Fail;
        }
        gapFillTo := msg.newSeqNo;
      }
      if n == nextIn {
        outcome := InSequence(msg, gapFillTo, now, out);
      } else if n > nextIn {
        outcome := InGap(msg, now, out);
      } else {
        AskForLogout(TOO_LOW, now, out);
        outcome := Continue;
      }
    }

    /** Feed a decoded inbound message. */
    method Receive(msg: Message, now: nat, out: SessionOutput) returns (outcome: Outcome)
      requires Valid()
      modifies this, out
      ensures Valid() && (replay == old(replay) || fresh(replay))
      ensures Reached(OnMessage(old(View()), msg, now), old(out.log), out, outcome)
    {
      hide HandleSessionMessage;
      timers := timers.(nextIn := now + interval, missed := 0);
      out.Event(RawMessageReceived(msg));
      if closing.Some? {
        return Continue;
      }
      outcome := Handle(msg, now, out);
    }

    method GreetPeer(out: SessionOutput)
      modifies this, out
      ensures replay == old(replay)
      ensures Reached(StartTail(old(View())), old(out.log), out, Continue)
    {
      peerLogonReceived := true;
      if closing.Some? {
        return;
      }
      if logonSent {
        out.Event(LoggedOn);
      }
      AskForSyncTestRequest(out);
    }

    /** `Start`, on the fields. */
    method Begin(logon: Message, now: nat, out: SessionOutput) returns (outcome: Outcome)
      requires Valid()
      modifies this, out
      ensures Valid() && (replay == old(replay) || fresh(replay))
      ensures Reached(Start(old(View()), logon, now), old(out.log), out, outcome)
    {
      hide HandleSessionMessage, StartTail;
      outcome := Handle(logon, now, out);
      if outcome != Continue {
        return;
      }
      GreetPeer(out);
    }
  }
}
