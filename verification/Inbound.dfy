/** What a session tells the application, over whole runs (session/state.rs:252-269, 401-414, 675-876). */
module Inbound {
  import opened FixMessage
  import opened Replaying
  import opened Session
  import opened SessionRuns

  /**
   * The application listening: the next inbound number it has not been told about, where the last
   * ResendRequest it was asked to send began, and whether it has been asked for a Logout.
   */
  datatype Listener = Listener(next: nat, askedFrom: Option<nat>, logout: bool)

  /** What the listener makes of an output; `None` once something was out of order. */
  function Hear(b: Option<Listener>, o: Output): Option<Listener> {
    if b.None? then None
    else
      var Listener(next, askedFrom, logout) := b.value;
      match o
      case Raise(MessageReceived(n, msg)) =>
        // Each number once, in order, and none once the session is ending.
        if n == next && msg.seqNum == Some(n) && !logout then Some(b.value.(next := n + 1)) else None
      case Raise(InboundAdvanced(n)) =>
        if n > next then Some(b.value.(next := n)) else None
      case Raise(AdminSendRequired(msg)) =>
        if msg.msgType.ResendRequest? then
          // One request per gap, from the first missing number, open ended.
          if && msg.beginSeqNo == Some(next) && msg.endSeqNo == Some(0)
             && (askedFrom.Some? ==> askedFrom.value < next)
          then Some(b.value.(askedFrom := Some(next))) else None
        else if msg.msgType.Logout? then
          if !logout then Some(b.value.(logout := true)) else None
        else b
      case _ => b
  }

  function HearAll(b: Option<Listener>, log: seq<Output>): Option<Listener> {
    if log == [] then b else Hear(HearAll(b, log[..|log| - 1]), log[|log| - 1])
  }

  lemma {:induction false} HearAppend(b: Option<Listener>, l: seq<Output>, l': seq<Output>)
    ensures HearAll(b, l + l') == HearAll(HearAll(b, l), l')
  {
    if l' == [] {
      assert l + l' == l;
    } else {
      assert (l + l')[..|l + l'| - 1] == l + l'[..|l'| - 1];
      HearAppend(b, l, l'[..|l'| - 1]);
    }
  }

  lemma {:induction false} HearOne(b: Option<Listener>, o: Output)
    ensures HearAll(b, [o]) == Hear(b, o)
  {
    assert [o][..0] == [];
    assert HearAll(b, []) == b;
  }

  /** Outputs the listener has no interest in. */
  predicate Unheard(o: Output) {
    match o
    case Transmit(_, _) => true
    case Raise(MessageReceived(_, _)) => false
    case Raise(InboundAdvanced(_)) => false
    case Raise(AdminSendRequired(msg)) => !msg.msgType.ResendRequest? && !msg.msgType.Logout?
    case _ => true
  }

  lemma {:induction false} HearUnheard(b: Option<Listener>, log: seq<Output>)
    requires forall i :: 0 <= i < |log| ==> Unheard(log[i])
    ensures HearAll(b, log) == b
  {
    if log != [] {
      HearUnheard(b, log[..|log| - 1]);
    }
  }

  /** The session's own fields agree with what the listener was told, bar a Logout still to be answered. */
  ghost predicate Counted(s: SessionView, b: Listener) {
    && b.next == s.nextIn
    && b.logout == s.closing.Some?
    && (s.rerequest.Some? ==> s.nextIn < s.rerequest.value && b.askedFrom.Some?)
    && (b.askedFrom.Some? ==> b.askedFrom.value <= s.nextIn)
    && (b.askedFrom.Some? && s.rerequest.None? ==> b.askedFrom.value < s.nextIn)
  }

  /** A Logout that came inside a gap waits for the gap to close, and no longer. */
  predicate WaitsForGap(s: SessionView) {
    s.peerLogoutPending && s.closing.None? ==> s.rerequest.Some?
  }

  ghost predicate Told(s: SessionView, out: seq<Output>, b: Listener) {
    HearAll(Some(b), out).Some? && Counted(s, HearAll(Some(b), out).value)
  }

  lemma {:induction false} ToldFrom(s: SessionView, l: seq<Output>, l': seq<Output>, b: Listener, mid: SessionView)
    requires Told(mid, l, b) && Told(s, l', HearAll(Some(b), l).value)
    ensures Told(s, l + l', b)
  {
    HearAppend(Some(b), l, l');
  }

  lemma {:induction false} QuietTold(s': SessionView, s: SessionView, out: seq<Output>, b: Listener)
    requires Counted(s, b)
    requires s'.nextIn == s.nextIn && s'.closing == s.closing && s'.rerequest == s.rerequest
    requires forall i :: 0 <= i < |out| ==> Unheard(out[i])
    ensures Told(s', out, b)
  {
    HearUnheard(Some(b), out);
  }

  lemma {:induction false} LogoutTold(s: SessionView, text: string, now: nat, b: Listener)
    requires Counted(s, b)
    ensures Told(RequestLogout(s, text, now).s, RequestLogout(s, text, now).out, b)
  {
    LogoutHeard(s, text, now, b);
  }

  lemma {:induction false} LogoutHeard(s: SessionView, text: string, now: nat, b: Listener)
    requires b.logout == s.closing.Some?
    ensures HearAll(Some(b), RequestLogout(s, text, now).out) == Some(b.(logout := true))
  {
    var t := RequestLogout(s, text, now);
    if s.closing.None? {
      HearOne(Some(b), t.out[0]);
    } else {
      assert HearAll(Some(b), []) == Some(b);
    }
  }

  // ---------------------------------------------------------------------
  // Each step
  // ---------------------------------------------------------------------

  /** What a session-level message prompts is heard only if it is a Logout. */
  lemma {:induction false} PromptHeard(s: SessionView, msg: Message, now: nat, b: Listener)
    requires b.logout == s.closing.Some?
    ensures HearAll(Some(b), Prompted(s, msg, now).out) == Some(b.(logout := Prompted(s, msg, now).s.closing.Some?))
  {
    hide RequestLogout, HearAll;
    if msg.msgType.Logout? {
      LogoutHeard(s, LOGOUT_RECEIVED, now, b);
    } else {
      HearUnheard(Some(b), Prompted(s, msg, now).out);
    }
  }

  /** What acting on an in-sequence message tells the listener: that its number is dealt with. */
  lemma {:induction false} DispatchHeard(s: SessionView, msg: Message, now: nat, b: Listener)
    requires msg.seqNum == Some(b.next) && b.next < s.nextIn && b.logout == s.closing.Some?
    requires Delivered(msg) ==> s.nextIn == b.next + 1 && !b.logout
    requires DispatchMessage(s, msg, true, now).outcome == Continue
    ensures var d := DispatchMessage(s, msg, true, now);
            HearAll(Some(b), d.out) == Some(b.(next := s.nextIn, logout := d.s.closing.Some?))
  {
    hide Prompted, HearAll;
    var d := DispatchMessage(s, msg, true, now);
    if Delivered(msg) {
      HearOne(Some(b), Raise(MessageReceived(b.next, msg)));
    } else {
      var advanced := Raise(InboundAdvanced(s.nextIn));
      PromptHeard(s, msg, now, b);
      HearAppend(Some(b), Prompted(s, msg, now).out, [advanced]);
      HearOne(HearAll(Some(b), Prompted(s, msg, now).out), advanced);
    }
  }

  lemma {:induction false} InSequenceTold(s: SessionView, msg: Message, now: nat, b: Listener)
    requires Counted(s, b) && msg.seqNum == Some(s.nextIn)
    requires msg.msgType.SequenceReset? ==> msg.newSeqNo.Some?
    requires s.closing.Some? ==> !Delivered(msg)
    requires HandleInSequence(s, msg, now).outcome != Fail
    ensures Told(HandleInSequence(s, msg, now).s, HandleInSequence(s, msg, now).out, b)
    ensures WaitsForGap(HandleInSequence(s, msg, now).s)
  {
    hide DispatchMessage, RequestLogout;
    var s1 := Advanced(s, msg);
    var d := DispatchMessage(s1, msg, true, now);
    DispatchHeard(s1, msg, now, b);
    assert Told(d.s, d.out, b);
    if d.s.peerLogoutPending && d.s.rerequest.None? {
      var logout := RequestLogout(d.s, LOGOUT_RECEIVED, now);
      LogoutTold(d.s, LOGOUT_RECEIVED, now, HearAll(Some(b), d.out).value);
      ToldFrom(logout.s, d.out, logout.out, b, d.s);
    }
  }

  lemma {:induction false} AskTold(s: SessionView, msg: Message, b: Listener)
    requires Counted(s, b) && msg.seqNum.Some? && s.nextIn < msg.seqNum.value
    ensures Told(AskForGap(s, msg).s, AskForGap(s, msg).out, b)
  {
    if s.rerequest.None? {
      HearOne(Some(b), Raise(AdminSendRequired(ResendRequestMessage(s.nextIn))));
    } else {
      assert HearAll(Some(b), []) == Some(b);
    }
  }

  lemma {:induction false} OpenUnheard(s: SessionView, msg: Message)
    ensures InboundUntouched(s, OpenReplay(s, msg))
  {
  }

  lemma {:induction false} GapTold(s: SessionView, msg: Message, now: nat, b: Listener)
    requires Counted(s, b) && msg.seqNum.Some? && s.nextIn < msg.seqNum.value
    ensures Told(HandleGap(s, msg, now).s, HandleGap(s, msg, now).out, b)
    ensures WaitsForGap(HandleGap(s, msg, now).s)
  {
    var ask := AskForGap(s, msg);
    AskTold(s, msg, b);
    if msg.msgType.ResendRequest? {
      hide OpenReplay, AskForGap, HearAll, Counted;
      var d := DispatchMessage(ask.s, msg, false, now);
      assert d == OpenReplay(ask.s, msg);
      OpenUnheard(ask.s, msg);
      QuietTold(d.s, ask.s, d.out, HearAll(Some(b), ask.out).value);
      ToldFrom(d.s, ask.out, d.out, b, ask.s);
    }
  }

  lemma {:induction false} HandleTold(s: SessionView, msg: Message, now: nat, b: Listener)
    requires Counted(s, b) && WaitsForGap(s)
    requires s.closing.Some? ==> !Delivered(msg)
    requires HandleSessionMessage(s, msg, now).outcome != Fail
    ensures Told(HandleSessionMessage(s, msg, now).s, HandleSessionMessage(s, msg, now).out, b)
    ensures WaitsForGap(HandleSessionMessage(s, msg, now).s)
  {
    hide HandleInSequence, HandleGap, RequestLogout;
    if msg.seqNum.value == s.nextIn {
      InSequenceTold(s, msg, now, b);
    } else if msg.seqNum.value > s.nextIn {
      GapTold(s, msg, now, b);
    } else {
      LogoutTold(s, TOO_LOW, now, b);
    }
  }

  lemma {:induction false} ReceiveTold(s: SessionView, msg: Message, now: nat, b: Listener)
    requires Counted(s, b) && WaitsForGap(s)
    requires OnMessage(s, msg, now).outcome != Fail
    ensures Told(OnMessage(s, msg, now).s, OnMessage(s, msg, now).out, b)
    ensures WaitsForGap(OnMessage(s, msg, now).s)
  {
    hide HandleSessionMessage;
    var s1 := s.(timers := s.timers.(nextIn := now + s.interval, missed := 0));
    var received := [Raise(RawMessageReceived(msg))];
    QuietTold(s1, s, received, b);
    if s.closing.None? {
      var h := HandleSessionMessage(s1, msg, now);
      HandleTold(s1, msg, now, HearAll(Some(b), received).value);
      ToldFrom(h.s, received, h.out, b, s1);
    }
  }

  lemma {:induction false} StartTold(s: SessionView, logon: Message, now: nat, b: Listener)
    requires Counted(s, b) && WaitsForGap(s) && logon.msgType.Logon?
    requires Start(s, logon, now).outcome != Fail
    ensures Told(Start(s, logon, now).s, Start(s, logon, now).out, b)
    ensures WaitsForGap(Start(s, logon, now).s)
  {
    hide HandleSessionMessage;
    var h := HandleSessionMessage(s, logon, now);
    HandleTold(s, logon, now, b);
    if h.outcome == Continue {
      var tail := StartTail(h.s);
      QuietTold(tail.s, h.s, tail.out, HearAll(Some(b), h.out).value);
      ToldFrom(tail.s, h.out, tail.out, b, h.s);
    }
  }

  lemma {:induction false} TickTold(s: SessionView, now: nat, b: Listener)
    requires Counted(s, b) && WaitsForGap(s)
    ensures Told(OnTimeout(s, now).s, OnTimeout(s, now).out, b)
    ensures WaitsForGap(OnTimeout(s, now).s)
  {
    hide RequestLogout;
    if s.closing.Some? {
      QuietTold(s, s, [], b);
    } else {
      var beat := HeartbeatDue(s, now);
      QuietTold(beat.s, s, beat.out, b);
      var b1, miss := HearAll(Some(b), beat.out).value, HeartbeatMissed(beat.s, now);
      MissTold(beat.s, now, b1);
      ToldFrom(miss.s, beat.out, miss.out, b, beat.s);
    }
  }

  lemma {:induction false} MissTold(s: SessionView, now: nat, b: Listener)
    requires Counted(s, b) && WaitsForGap(s)
    ensures Told(HeartbeatMissed(s, now).s, HeartbeatMissed(s, now).out, b)
    ensures WaitsForGap(HeartbeatMissed(s, now).s)
  {
    hide RequestLogout, HearAll;
    if now >= s.timers.nextIn && s.timers.missed >= 2 {
      var s1 := s.(timers := s.timers.(nextIn := now + s.interval, missed := s.timers.missed + 1));
      LogoutTold(s1, HEARTBEAT_TIMEOUT, now, b);
    } else {
      QuietTold(HeartbeatMissed(s, now).s, s, HeartbeatMissed(s, now).out, b);
    }
  }

  lemma {:induction false} CommandTold(s: SessionView, cmd: Command, now: nat, b: Listener)
    requires s.WellFormed() && Counted(s, b) && WaitsForGap(s)
    ensures Told(OnCommand(s, cmd, now).s, OnCommand(s, cmd, now).out, b)
    ensures WaitsForGap(OnCommand(s, cmd, now).s)
  {
    hide SendMessage, ReplayMessage, CompleteReplay, RequestLogout;
    var s1 := s.(timers := s.timers.(nextOut := now + s.interval));
    match cmd
    case Disconnect => LogoutTold(s, DISCONNECT_REQUESTED, now, b);
    case Send(msg) =>
      SendUnheard(s, msg, now);
      QuietTold(SendMessage(s, msg, now).s, s, SendMessage(s, msg, now).out, b);
    case Replay(msg) =>
      ReplayUnheard(s1, msg);
      QuietTold(ReplayMessage(s1, msg).s, s, ReplayMessage(s1, msg).out, b);
    case ReplayComplete =>
      CompleteUnheard(s1);
      QuietTold(CompleteReplay(s1).s, s, CompleteReplay(s1).out, b);
  }

  /** A call that leaves the inbound side alone. */
  ghost predicate InboundUntouched(s: SessionView, r: Step) {
    && r.s.nextIn == s.nextIn && r.s.closing == s.closing && r.s.rerequest == s.rerequest
    && r.s.peerLogoutPending == s.peerLogoutPending
    && forall i :: 0 <= i < |r.out| ==> Unheard(r.out[i])
  }

  lemma {:induction false} SendUnheard(s: SessionView, msg: Message, now: nat)
    ensures InboundUntouched(s, SendMessage(s, msg, now))
  {
  }

  lemma {:induction false} ReplayUnheard(s: SessionView, msg: Message)
    requires s.WellFormed()
    ensures InboundUntouched(s, ReplayMessage(s, msg))
  {
  }

  lemma {:induction false} QueueUnheard(s: SessionView, queue: seq<Message>)
    requires forall i :: 0 <= i < |queue| ==> queue[i].seqNum.Some?
    ensures InboundUntouched(s, DispatchQueue(s, queue))
    decreases |queue|
  {
    if queue != [] {
      QueueUnheard(DispatchOutbound(s, queue[0]).s, queue[1..]);
    }
  }

  lemma {:induction false} UntouchedThen(s: SessionView, r: Step, r': Step, outcome: Outcome)
    requires InboundUntouched(s, r) && InboundUntouched(r.s, r')
    ensures InboundUntouched(s, Step(r'.s, r.out + r'.out, outcome))
  {
  }

  lemma {:induction false} CompleteUnheard(s: SessionView)
    requires s.WellFormed()
    ensures InboundUntouched(s, CompleteReplay(s))
  {
    hide DispatchQueue;
    if s.replay.Some? {
      var fill := FillTrailing(s);
      var start := fill.(s := fill.s.(replay := None));
      assert InboundUntouched(s, start);
      var queue := DispatchQueue(start.s, s.replay.value.queue);
      var sync := RequestSyncTestRequest(queue.s);
      assert InboundUntouched(queue.s, sync);
      hide FillTrailing, RequestSyncTestRequest, InboundUntouched;
      QueueUnheard(start.s, s.replay.value.queue);
      UntouchedThen(s, start, queue, queue.outcome);
      UntouchedThen(s, start, queue, Continue);
      UntouchedThen(s, Step(queue.s, fill.out + queue.out, Continue), sync, Continue);
    }
  }

  /** An inbound message was accepted, and the peer's Logon is one. */
  predicate GoodInput(s: SessionView, input: Input)
    requires s.WellFormed()
  {
    match input
    case Receive(_, _) => StepOf(s, input).outcome != Fail
    case PeerLogon(logon, _) => logon.msgType.Logon? && StepOf(s, input).outcome != Fail
    case _ => true
  }

  lemma {:induction false} StepTold(s: SessionView, input: Input, b: Listener)
    requires s.WellFormed() && Counted(s, b) && WaitsForGap(s) && GoodInput(s, input)
    ensures Told(StepOf(s, input).s, StepOf(s, input).out, b)
    ensures WaitsForGap(StepOf(s, input).s)
  {
    hide OnMessage, OnCommand, OnTimeout, Start;
    match input
    case Receive(msg, now) => ReceiveTold(s, msg, now, b);
    case Apply(cmd, now) => CommandTold(s, cmd, now, b);
    case Tick(now) => TickTold(s, now, b);
    case AskLogon => QuietTold(s, s, RequestLogon(s).out, b);
    case PeerLogon(logon, now) => StartTold(s, logon, now, b);
    case PeerClosed => QuietTold(s, s, [Raise(Disconnected)], b);
  }

  // ---------------------------------------------------------------------
  // Whole runs
  // ---------------------------------------------------------------------

  predicate GoodRun(s: SessionView, inputs: seq<Input>)
    requires s.WellFormed()
  {
    inputs != [] ==>
      var before := inputs[..|inputs| - 1];
      GoodRun(s, before) && GoodInput(After(s, before), inputs[|inputs| - 1])
  }

  /**
   * Over any run whose inbound messages are accepted, the application is told of every number
   * below `nextIn` exactly once, in order; each gap asks for one resend, from the first missing
   * number; at most one Logout is asked for, no message is delivered after it, and one that came
   * inside a gap is held until the gap closes.
   */
  lemma {:induction false} InboundOrder(interval: nat, nextIn: nat, now: nat, inputs: seq<Input>)
    requires GoodRun(Initial(interval, nextIn, now), inputs)
    ensures var s := Initial(interval, nextIn, now);
            && Told(After(s, inputs), Log(s, inputs), Listener(nextIn, None, false))
            && WaitsForGap(After(s, inputs))
  {
    var s, b := Initial(interval, nextIn, now), Listener(nextIn, None, false);
    if inputs == [] {
      assert HearAll(Some(b), []) == Some(b);
    } else {
      hide StepOf, Counted;
      var before, last := inputs[..|inputs| - 1], inputs[|inputs| - 1];
      InboundOrder(interval, nextIn, now, before);
      var mid := After(s, before);
      StepTold(mid, last, HearAll(Some(b), Log(s, before)).value);
      ToldFrom(StepOf(mid, last).s, Log(s, before), StepOf(mid, last).out, b, mid);
    }
  }

  function DeliveredBy(o: Output): seq<nat> {
    if o.Raise? && o.event.MessageReceived? then [o.event.seqNum] else []
  }

  function DeliveredNumbers(log: seq<Output>): seq<nat> {
    if log == [] then [] else DeliveredNumbers(log[..|log| - 1]) + DeliveredBy(log[|log| - 1])
  }

  lemma {:induction false} DeliveredIncrease(b: Listener, log: seq<Output>)
    requires HearAll(Some(b), log).Some?
    ensures StrictlyIncreasing(DeliveredNumbers(log))
    ensures b.next <= HearAll(Some(b), log).value.next
    ensures forall n :: n in DeliveredNumbers(log) ==> b.next <= n < HearAll(Some(b), log).value.next
  {
    if log != [] {
      hide Hear, DeliveredBy;
      var k := |log| - 1;
      HeardBefore(HearAll(Some(b), log[..k]), log[k]);
      DeliveredIncrease(b, log[..k]);
      DeliveredNext(DeliveredNumbers(log[..k]), b.next, HearAll(Some(b), log[..k]).value, log[k]);
    }
  }

  lemma {:induction false} HeardBefore(b: Option<Listener>, o: Output)
    requires Hear(b, o).Some?
    ensures b.Some?
  {
  }

  /** One more output: what it delivers comes next. */
  lemma {:induction false} DeliveredNext(before: seq<nat>, from: nat, b: Listener, o: Output)
    requires StrictlyIncreasing(before) && (forall n :: n in before ==> from <= n < b.next) && from <= b.next
    requires Hear(Some(b), o).Some?
    ensures var all, next := before + DeliveredBy(o), Hear(Some(b), o).value.next;
            StrictlyIncreasing(all) && from <= next && forall n :: n in all ==> from <= n < next
  {
    assert forall i :: 0 <= i < |before| ==> before[i] in before;
    assert b.next <= Hear(Some(b), o).value.next;
    if o.Raise? && o.event.MessageReceived? {
      assert DeliveredBy(o) == [b.next];
    }
  }

  function ResendBegin(o: Output): seq<nat> {
    if && o.Raise? && o.event.AdminSendRequired? && o.event.msg.msgType.ResendRequest?
       && o.event.msg.beginSeqNo.Some?
    then [o.event.msg.beginSeqNo.value] else []
  }

  /** Where the ResendRequests the application was asked for began. */
  function ResendBegins(log: seq<Output>): seq<nat> {
    if log == [] then [] else ResendBegins(log[..|log| - 1]) + ResendBegin(log[|log| - 1])
  }

  /** The listener's last request began no earlier than any of these. */
  ghost predicate AskedBy(begins: seq<nat>, b: Listener) {
    forall i :: 0 <= i < |begins| ==> b.askedFrom.Some? && begins[i] <= b.askedFrom.value
  }

  lemma {:induction false} AskStep(begins: seq<nat>, b: Listener, o: Output)
    requires StrictlyIncreasing(begins) && AskedBy(begins, b) && Hear(Some(b), o).Some?
    ensures StrictlyIncreasing(begins + ResendBegin(o))
    ensures AskedBy(begins + ResendBegin(o), Hear(Some(b), o).value)
  {
    var all := begins + ResendBegin(o);
    assert forall i :: 0 <= i < |all| ==> all[i] == if i < |begins| then begins[i] else ResendBegin(o)[0];
  }

  lemma {:induction false} ResendBeginsIncrease(b: Listener, log: seq<Output>)
    requires b.askedFrom.None? && HearAll(Some(b), log).Some?
    ensures StrictlyIncreasing(ResendBegins(log))
    ensures AskedBy(ResendBegins(log), HearAll(Some(b), log).value)
  {
    if log != [] {
      var before, last := log[..|log| - 1], log[|log| - 1];
      ResendBeginsIncrease(b, before);
      hide Hear, ResendBegin;
      assert HearAll(Some(b), before).Some? by { HearNeedsPast(HearAll(Some(b), before), last); }
      AskStep(ResendBegins(before), HearAll(Some(b), before).value, last);
    }
  }

  lemma {:induction false} HearNeedsPast(b: Option<Listener>, o: Output)
    ensures Hear(b, o).Some? ==> b.Some?
  {
  }

  // ---------------------------------------------------------------------
  // What each number below `nextIn` was used up by
  // ---------------------------------------------------------------------

  /** The numbers a message says it stands for: a gap fill up to its NewSeqNo, any other for its own. */
  function StandsFor(msg: Message): Option<Piece> {
    if msg.seqNum.None? then None
    else if !msg.msgType.SequenceReset? then Some(Single(msg.seqNum.value))
    else if msg.gapFillFlag == Some(true) && msg.newSeqNo.Some? && msg.newSeqNo.value > msg.seqNum.value then
      Some(Fill(Range(msg.seqNum.value, msg.newSeqNo.value - 1)))
    else None
  }

  /** The message an input brings to a session that still listens. */
  function Heard(s: SessionView, input: Input): Option<Message> {
    match input
    case Receive(msg, _) => if s.closing.None? then Some(msg) else None
    case PeerLogon(logon, _) => Some(logon)
    case _ => None
  }

  /** What an input uses up: the numbers its message stands for, if they start with the one expected. */
  function ConsumedBy(s: SessionView, input: Input): seq<Piece> {
    var heard := Heard(s, input);
    if heard.None? || StandsFor(heard.value).None? || StandsFor(heard.value).value.First() != s.nextIn then []
    else [StandsFor(heard.value).value]
  }

  function Consumed(s: SessionView, inputs: seq<Input>): seq<Piece>
    requires s.WellFormed()
  {
    if inputs == [] then []
    else
      var before := inputs[..|inputs| - 1];
      Consumed(s, before) + ConsumedBy(After(s, before), inputs[|inputs| - 1])
  }

  lemma {:induction false} HandleAdvances(s: SessionView, msg: Message, now: nat)
    ensures var r, p := HandleSessionMessage(s, msg, now), StandsFor(msg);
            r.s.nextIn == if p.Some? && p.value.First() == s.nextIn then p.value.Last() + 1 else s.nextIn
  {
    hide HandleInSequence, HandleGap, RequestLogout;
    if msg.seqNum.Some? && msg.seqNum.value == s.nextIn {
      InSequenceAdvances(s, msg, now);
    } else {
      GapStays(s, msg, now);
    }
  }

  lemma {:induction false} InSequenceAdvances(s: SessionView, msg: Message, now: nat)
    requires msg.seqNum == Some(s.nextIn)
    ensures var r, p := HandleSessionMessage(s, msg, now), StandsFor(msg);
            r.s.nextIn == if p.Some? then p.value.Last() + 1 else s.nextIn
  {
    hide DispatchMessage, RequestLogout, HandleGap;
  }

  lemma {:induction false} GapStays(s: SessionView, msg: Message, now: nat)
    ensures msg.seqNum.Some? ==> HandleGap(s, msg, now).s.nextIn == s.nextIn
    ensures RequestLogout(s, TOO_LOW, now).s.nextIn == s.nextIn
  {
    hide DispatchMessage;
  }

  lemma {:induction false} StepConsumes(s: SessionView, input: Input)
    requires s.WellFormed()
    ensures Tiles(ConsumedBy(s, input), s.nextIn, StepOf(s, input).s.nextIn)
  {
    hide HandleSessionMessage, SendMessage, ReplayMessage, CompleteReplay;
    match input
    case Receive(msg, now) =>
      HandleAdvances(s.(timers := s.timers.(nextIn := now + s.interval, missed := 0)), msg, now);
    case PeerLogon(logon, now) => HandleAdvances(s, logon, now);
    case Apply(cmd, now) => CommandLeavesNextIn(s, cmd, now);
    case Tick(now) =>
    case AskLogon =>
    case PeerClosed =>
  }

  lemma {:induction false} CommandLeavesNextIn(s: SessionView, cmd: Command, now: nat)
    requires s.WellFormed()
    ensures OnCommand(s, cmd, now).s.nextIn == s.nextIn
  {
    hide SendMessage, ReplayMessage, CompleteReplay;
    var s1 := s.(timers := s.timers.(nextOut := now + s.interval));
    match cmd
    case Disconnect =>
    case Send(msg) => SendUnheard(s, msg, now);
    case Replay(msg) => ReplayUnheard(s1, msg);
    case ReplayComplete => CompleteUnheard(s1);
  }

  /**
   * Over any run at all, whatever fails along the way, the numbers passed are used up each by one
   * message: the numbers messages stand for, when they start with the one expected, lie end to end
   * from the first number expected to the last.
   */
  lemma {:induction false} InboundAccounting(s: SessionView, inputs: seq<Input>)
    requires s.WellFormed()
    ensures Tiles(Consumed(s, inputs), s.nextIn, After(s, inputs).nextIn)
  {
    if inputs != [] {
      hide StepOf, ConsumedBy;
      var before, last := inputs[..|inputs| - 1], inputs[|inputs| - 1];
      InboundAccounting(s, before);
      var mid := After(s, before);
      StepConsumes(mid, last);
      TilesAppend(Consumed(s, before), ConsumedBy(mid, last), s.nextIn, mid.nextIn, StepOf(mid, last).s.nextIn);
    }
  }

  /** A Logout is answered as such only when it was in sequence, or once the gap it came in has closed. */
  lemma {:induction false} LogoutAnsweredAfterGap(s: SessionView, input: Input, i: nat)
    requires s.WellFormed() && i < |StepOf(s, input).out|
    requires StepOf(s, input).out[i] == Raise(AdminSendRequired(LogoutMessage(LOGOUT_RECEIVED)))
    ensures input.Receive? || input.PeerLogon?
    ensures var msg := if input.Receive? then input.msg else input.logon;
            && msg.seqNum == Some(s.nextIn)
            && (msg.msgType.Logout? || (s.peerLogoutPending && StepOf(s, input).s.rerequest.None?))
  {
    hide HandleSessionMessage, OnCommand;
    match input
    case Receive(msg, now) =>
      AnsweredInHandle(s.(timers := s.timers.(nextIn := now + s.interval, missed := 0)), msg, now, i - 1);
    case PeerLogon(logon, now) =>
      var h := HandleSessionMessage(s, logon, now);
      if i < |h.out| {
        AnsweredInHandle(s, logon, now, i);
      }
    case Apply(cmd, now) => CommandNeverAnswers(s, cmd, now, i);
    case _ =>
  }

  lemma {:induction false} CommandNeverAnswers(s: SessionView, cmd: Command, now: nat, i: nat)
    requires s.WellFormed() && i < |OnCommand(s, cmd, now).out|
    ensures OnCommand(s, cmd, now).out[i] != Raise(AdminSendRequired(LogoutMessage(LOGOUT_RECEIVED)))
  {
    hide SendMessage, ReplayMessage, CompleteReplay;
    var s1 := s.(timers := s.timers.(nextOut := now + s.interval));
    match cmd
    case Disconnect =>
      assert LOGOUT_RECEIVED[0] != DISCONNECT_REQUESTED[0];
    case Send(msg) => SendUnheard(s, msg, now);
    case Replay(msg) => ReplayUnheard(s1, msg);
    case ReplayComplete => CompleteUnheard(s1);
  }

  lemma {:induction false} AnsweredInHandle(s: SessionView, msg: Message, now: nat, i: nat)
    requires i < |HandleSessionMessage(s, msg, now).out|
    requires HandleSessionMessage(s, msg, now).out[i] == Raise(AdminSendRequired(LogoutMessage(LOGOUT_RECEIVED)))
    ensures msg.seqNum == Some(s.nextIn)
    ensures msg.msgType.Logout? || (s.peerLogoutPending && HandleSessionMessage(s, msg, now).s.rerequest.None?)
  {
    assert LOGOUT_RECEIVED[0] != TOO_LOW[0];
    hide RequestLogout;
  }

  // ---------------------------------------------------------------------
  // When a resend is asked for
  // ---------------------------------------------------------------------

  lemma {:induction false} BeginsAppend(a: seq<Output>, b: seq<Output>)
    ensures ResendBegins(a + b) == ResendBegins(a) + ResendBegins(b)
  {
    if b == [] {
      assert a + b == a;
    } else {
      assert (a + b)[..|a + b| - 1] == a + b[..|b| - 1];
      BeginsAppend(a, b[..|b| - 1]);
    }
  }

  lemma {:induction false} NoBegins(log: seq<Output>)
    requires forall i :: 0 <= i < |log| ==> ResendBegin(log[i]) == []
    ensures ResendBegins(log) == []
  {
    if log != [] {
      NoBegins(log[..|log| - 1]);
    }
  }

  lemma {:induction false} PromptAsksNothing(s: SessionView, msg: Message, now: nat)
    ensures ResendBegins(Prompted(s, msg, now).out) == []
  {
    NoBegins(Prompted(s, msg, now).out);
  }

  lemma {:induction false} DispatchAsksNothing(s: SessionView, msg: Message, inSequence: bool, now: nat)
    requires msg.seqNum.Some?
    ensures ResendBegins(DispatchMessage(s, msg, inSequence, now).out) == []
  {
    hide Prompted, ResendBegins;
    var advanced := [Raise(InboundAdvanced(s.nextIn))];
    PromptAsksNothing(s, msg, now);
    NoBegins(advanced);
    NoBegins([Raise(MessageReceived(msg.seqNum.value, msg))]);
    BeginsAppend(Prompted(s, msg, now).out, advanced);
  }

  /** A resend is asked for when a gap opens, from the number expected, and at no other time. */
  predicate AsksAsGapOpens(s: SessionView, r: Step) {
    ResendBegins(r.out) == if s.rerequest.None? && r.s.rerequest.Some? then [s.nextIn] else []
  }

  lemma {:induction false} HandleAsks(s: SessionView, msg: Message, now: nat)
    ensures AsksAsGapOpens(s, HandleSessionMessage(s, msg, now))
  {
    if msg.seqNum.Some? && !(msg.msgType.SequenceReset? && (msg.gapFillFlag != Some(true) || msg.newSeqNo.None?)) {
      if msg.seqNum.value == s.nextIn {
        InSequenceAsks(s, msg, now);
      } else if msg.seqNum.value > s.nextIn {
        GapAsks(s, msg, now);
      } else {
        NoBegins(RequestLogout(s, TOO_LOW, now).out);
      }
    } else {
      NoBegins([]);
    }
  }

  lemma {:induction false} InSequenceAsks(s: SessionView, msg: Message, now: nat)
    requires msg.seqNum.Some? && (msg.msgType.SequenceReset? ==> msg.newSeqNo.Some?)
    ensures AsksAsGapOpens(s, HandleInSequence(s, msg, now))
  {
    hide DispatchMessage, ResendBegins;
    NoBegins([]);
    var d := DispatchMessage(Advanced(s, msg), msg, true, now);
    DispatchAsksNothing(Advanced(s, msg), msg, true, now);
    NoBegins(RequestLogout(d.s, LOGOUT_RECEIVED, now).out);
    BeginsAppend(d.out, RequestLogout(d.s, LOGOUT_RECEIVED, now).out);
  }

  lemma {:induction false} GapAsks(s: SessionView, msg: Message, now: nat)
    requires msg.seqNum.Some?
    ensures AsksAsGapOpens(s, HandleGap(s, msg, now))
  {
    hide DispatchMessage, ResendBegins, AskForGap;
    var ask := AskForGap(s, msg);
    AskBegins(s, msg);
    DispatchAsksNothing(ask.s, msg, false, now);
    BeginsAppend(ask.out, DispatchMessage(ask.s, msg, false, now).out);
  }

  lemma {:induction false} AskBegins(s: SessionView, msg: Message)
    requires msg.seqNum.Some?
    ensures ResendBegins(AskForGap(s, msg).out) == if s.rerequest.None? then [s.nextIn] else []
  {
    var out := AskForGap(s, msg).out;
    assert ResendBegins([]) == [];
    assert out != [] ==> out[..0] == [];
  }

  /** Over every kind of input, in any state, whatever the call returns. */
  lemma {:induction false} StepAsks(s: SessionView, input: Input)
    requires s.WellFormed()
    ensures AsksAsGapOpens(s, StepOf(s, input))
  {
    hide OnCommand, OnTimeout, HandleSessionMessage, ResendBegins;
    match input
    case Receive(msg, now) =>
      var s1 := s.(timers := s.timers.(nextIn := now + s.interval, missed := 0));
      NoBegins([Raise(RawMessageReceived(msg))]);
      HandleAsks(s1, msg, now);
      BeginsAppend([Raise(RawMessageReceived(msg))], HandleSessionMessage(s1, msg, now).out);
    case Apply(cmd, now) => CommandAsks(s, cmd, now);
    case Tick(now) => TickAsks(s, now);
    case AskLogon => NoBegins(RequestLogon(s).out);
    case PeerLogon(logon, now) =>
      HandleAsks(s, logon, now);
      NoBegins(StartTail(HandleSessionMessage(s, logon, now).s).out);
      BeginsAppend(HandleSessionMessage(s, logon, now).out, StartTail(HandleSessionMessage(s, logon, now).s).out);
    case PeerClosed => NoBegins([Raise(Disconnected)]);
  }

  lemma {:induction false} TickAsks(s: SessionView, now: nat)
    ensures AsksAsGapOpens(s, OnTimeout(s, now))
  {
    hide ResendBegins;
    NoBegins(OnTimeout(s, now).out);
  }

  lemma {:induction false} CommandAsks(s: SessionView, cmd: Command, now: nat)
    requires s.WellFormed()
    ensures AsksAsGapOpens(s, OnCommand(s, cmd, now))
  {
    hide SendMessage, ReplayMessage, CompleteReplay;
    var s1 := s.(timers := s.timers.(nextOut := now + s.interval));
    match cmd {
      case Send(msg) => SendUnheard(s, msg, now);
      case Replay(msg) => ReplayUnheard(s1, msg);
      case ReplayComplete => CompleteUnheard(s1);
      case Disconnect =>
    }
    NoBegins(OnCommand(s, cmd, now).out);
  }
}
