/**
 * What becomes of a message that is offered for a replay without a time (session/state.rs:585-624):
 * the call fails, yet the replay has moved past it.
 */
module LostReplays {
  import opened FixMessage
  import opened Replaying
  import opened Session
  import opened SessionRuns
  import opened Outbound
  import opened TwoPeers
  import opened RecoveryCases

  /** Something goes out that accounts for a number: a message under it, or a gap fill over it. */
  predicate Covers(o: Output, n: nat) {
    && o.Transmit? && o.msg.seqNum.Some?
    && if o.role == GapFill then o.msg.newSeqNo.Some? && o.msg.seqNum.value <= n < o.msg.newSeqNo.value
       else o.msg.seqNum.value == n
  }

  predicate NoneCovers(log: seq<Output>, n: nat) {
    forall i :: 0 <= i < |log| ==> !Covers(log[i], n)
  }

  /** A number that is behind: the replay, if there is one, owes only numbers beyond it, and so does the queue. */
  predicate Behind(s: SessionView, n: nat) {
    && n <= s.highestAccepted
    && (s.replay.Some? ==> BehindReplay(s.replay.value, n))
  }

  predicate BehindReplay(r: ReplayView, n: nat) {
    && n + r.gapFillCount < r.nextExpected
    && forall i :: 0 <= i < |r.queue| ==> r.queue[i].seqNum.Some? && r.queue[i].seqNum.value > n
  }

  /** A step that leaves it behind. */
  ghost predicate Passes(r: Step, n: nat) {
    NoneCovers(r.out, n) && (NoAnnouncements(r.out) ==> Behind(r.s, n))
  }

  // ---------------------------------------------------------------------
  // What arrives
  // ---------------------------------------------------------------------

  /** Nothing is sent, and the replay is as it was unless another is announced. */
  ghost predicate Silent(s: SessionView, r: Step) {
    && (forall i :: 0 <= i < |r.out| ==> !r.out[i].Transmit?)
    && r.s.highestAccepted >= s.highestAccepted
    && (NoAnnouncements(r.out) ==> r.s.replay == s.replay)
  }

  lemma {:induction false} SilentPasses(s: SessionView, r: Step, n: nat)
    requires Silent(s, r) && Behind(s, n)
    ensures Passes(r, n)
  {
  }

  lemma {:induction false} SilentThen(s: SessionView, a: Step, b: Step)
    requires Silent(s, a) && Silent(a.s, b)
    ensures Silent(s, Step(b.s, a.out + b.out, b.outcome))
  {
    if NoAnnouncements(a.out + b.out) {
      NoneAnnounced(a.out, b.out);
    }
    hide NoAnnouncements;
  }

  lemma {:induction false} NoneAnnounced(a: seq<Output>, b: seq<Output>)
    requires NoAnnouncements(a + b)
    ensures NoAnnouncements(a) && NoAnnouncements(b)
  {
    hide Announces;
    assert forall i :: 0 <= i < |a| ==> (a + b)[i] == a[i];
    assert forall i :: 0 <= i < |b| ==> (a + b)[|a| + i] == b[i];
  }

  lemma {:induction false} PromptSilent(s: SessionView, msg: Message, now: nat)
    ensures Silent(s, Prompted(s, msg, now))
  {
    if msg.msgType.ResendRequest? {
      var t := OpenReplay(s, msg);
      assert t.outcome != Fail ==> Announces(t.out[0]);
    }
  }

  lemma {:induction false} DispatchSilent(s: SessionView, msg: Message, inSequence: bool, now: nat)
    requires msg.seqNum.Some?
    ensures Silent(s, DispatchMessage(s, msg, inSequence, now))
  {
    hide Prompted;
    if !Delivered(msg) {
      PromptSilent(s, msg, now);
      var p := Prompted(s, msg, now);
      SilentThen(s, p, Step(p.s, [Raise(InboundAdvanced(s.nextIn))], Continue));
    }
  }

  lemma {:induction false} HandleSilent(s: SessionView, msg: Message, now: nat)
    ensures Silent(s, HandleSessionMessage(s, msg, now))
  {
    hide DispatchMessage, Silent;
    if msg.seqNum.None? || (msg.msgType.SequenceReset? && (msg.gapFillFlag != Some(true) || msg.newSeqNo.None?)) {
      QuietSilent(s, Step(s, [], Fail));
    } else if msg.seqNum.value == s.nextIn {
      InSequenceSilent(s, msg, now);
    } else if msg.seqNum.value > s.nextIn {
      GapSilent(s, msg, now);
    } else {
      QuietSilent(s, RequestLogout(s, TOO_LOW, now));
    }
  }

  lemma {:induction false} QuietSilent(s: SessionView, r: Step)
    requires r.s.highestAccepted == s.highestAccepted && r.s.replay == s.replay
    requires forall i :: 0 <= i < |r.out| ==> !r.out[i].Transmit?
    ensures Silent(s, r)
  {
  }

  lemma {:induction false} InSequenceSilent(s: SessionView, msg: Message, now: nat)
    requires msg.seqNum.Some? && (msg.msgType.SequenceReset? ==> msg.newSeqNo.Some?)
    ensures Silent(s, HandleInSequence(s, msg, now))
  {
    hide DispatchMessage, Silent;
    if NumberAfter(msg) <= msg.seqNum.value {
      QuietSilent(s, Step(s, [], Fail));
    } else {
      var s1 := Advanced(s, msg);
      var d := DispatchMessage(s1, msg, true, now);
      DispatchSilent(s1, msg, true, now);
      QuietSilent(s, Step(s1, [], Continue));
      SilentThen(s, Step(s1, [], Continue), d);
      assert [] + d.out == d.out;
      var logout := RequestLogout(d.s, LOGOUT_RECEIVED, now);
      QuietSilent(d.s, Step(logout.s, logout.out, Continue));
      SilentThen(s, d, Step(logout.s, logout.out, Continue));
    }
  }

  lemma {:induction false} GapSilent(s: SessionView, msg: Message, now: nat)
    requires msg.seqNum.Some?
    ensures Silent(s, HandleGap(s, msg, now))
  {
    hide DispatchMessage, Silent;
    var ask := AskForGap(s, msg);
    QuietSilent(s, ask);
    QuietSilent(s, Step(ask.s.(peerLogoutPending := true), ask.out, Continue));
    DispatchSilent(ask.s, msg, false, now);
    SilentThen(s, ask, DispatchMessage(ask.s, msg, false, now));
  }

  lemma {:induction false} ReceiveSilent(s: SessionView, msg: Message, now: nat)
    ensures Silent(s, OnMessage(s, msg, now))
  {
    hide HandleSessionMessage, Silent;
    var s1 := s.(timers := s.timers.(nextIn := now + s.interval, missed := 0));
    var first := Step(s1, [Raise(RawMessageReceived(msg))], Continue);
    QuietSilent(s, first);
    HandleSilent(s1, msg, now);
    SilentThen(s, first, HandleSessionMessage(s1, msg, now));
  }

  lemma {:induction false} StartSilent(s: SessionView, logon: Message, now: nat)
    ensures Silent(s, Start(s, logon, now))
  {
    hide HandleSessionMessage, Silent;
    HandleSilent(s, logon, now);
    var h := HandleSessionMessage(s, logon, now);
    var tail := StartTail(h.s);
    QuietSilent(h.s, Step(tail.s, tail.out, Continue));
    SilentThen(s, h, Step(tail.s, tail.out, Continue));
  }

  // ---------------------------------------------------------------------
  // What the application does
  // ---------------------------------------------------------------------

  lemma {:induction false} SendPasses(s: SessionView, msg: Message, now: nat, n: nat)
    requires s.WellFormed() && Behind(s, n)
    ensures Passes(SendMessage(s, msg, now), n)
  {
  }

  lemma {:induction false} ReplayPasses(s: SessionView, msg: Message, n: nat)
    requires s.WellFormed() && Behind(s, n)
    ensures Passes(ReplayMessage(s, msg), n)
  {
  }

  lemma {:induction false} QueuePasses(s: SessionView, queue: seq<Message>, n: nat)
    requires forall i :: 0 <= i < |queue| ==> queue[i].seqNum.Some? && queue[i].seqNum.value > n
    ensures NoneCovers(DispatchQueue(s, queue).out, n)
    decreases |queue|
  {
    if queue != [] {
      QueuePasses(DispatchOutbound(s, queue[0]).s, queue[1..], n);
    }
  }

  lemma {:induction false} CompletePasses(s: SessionView, n: nat)
    requires s.WellFormed() && Behind(s, n)
    ensures Passes(CompleteReplay(s), n)
  {
    if s.replay.Some? {
      hide DispatchQueue;
      var fill := FillTrailing(s);
      QueuePasses(fill.s.(replay := None), s.replay.value.queue, n);
    }
  }

  lemma {:induction false} StepPasses(s: SessionView, input: Input, n: nat)
    requires s.WellFormed() && Behind(s, n)
    ensures Passes(StepOf(s, input), n)
  {
    hide OnMessage, Start, SendMessage, ReplayMessage, CompleteReplay, Passes;
    match input
    case Receive(msg, now) =>
      ReceiveSilent(s, msg, now);
      SilentPasses(s, OnMessage(s, msg, now), n);
    case PeerLogon(logon, now) =>
      StartSilent(s, logon, now);
      SilentPasses(s, Start(s, logon, now), n);
    case Apply(cmd, now) => CommandPasses(s, cmd, now, n);
    case Tick(now) => SilentPasses(s, OnTimeout(s, now), n);
    case AskLogon => SilentPasses(s, RequestLogon(s), n);
    case PeerClosed => SilentPasses(s, Step(s, [Raise(Disconnected)], Close), n);
  }

  lemma {:induction false} CommandPasses(s: SessionView, cmd: Command, now: nat, n: nat)
    requires s.WellFormed() && Behind(s, n)
    ensures Passes(OnCommand(s, cmd, now), n)
  {
    hide SendMessage, ReplayMessage, CompleteReplay;
    var s1 := s.(timers := s.timers.(nextOut := now + s.interval));
    match cmd
    case Send(msg) => SendPasses(s, msg, now, n);
    case Replay(msg) => ReplayPasses(s1, msg, n);
    case ReplayComplete => CompletePasses(s1, n);
    case Disconnect => SilentPasses(s, RequestLogout(s, DISCONNECT_REQUESTED, now), n);
  }

  // ---------------------------------------------------------------------
  // Whole runs
  // ---------------------------------------------------------------------

  lemma {:induction false} RunPasses(s: SessionView, inputs: seq<Input>, n: nat)
    requires s.WellFormed() && Behind(s, n) && NoAnnouncements(Log(s, inputs))
    ensures NoneCovers(Log(s, inputs), n) && Behind(After(s, inputs), n)
  {
    if inputs != [] {
      hide StepOf, Covers, Behind;
      var before, last := inputs[..|inputs| - 1], inputs[|inputs| - 1];
      var r := StepOf(After(s, before), last);
      assert forall i :: 0 <= i < |Log(s, before)| ==> Log(s, inputs)[i] == Log(s, before)[i];
      RunPasses(s, before, n);
      StepPasses(After(s, before), last, n);
      assert forall i :: 0 <= i < |r.out| ==> Log(s, inputs)[|Log(s, before)| + i] == r.out[i];
    }
  }

  /**
   * Whatever came before, an offer that is due and carries no time fails, and sends nothing; and its
   * number, with those that were owed a gap fill before it, is never accounted for on the wire, by
   * this replay or anything that follows, until the peer asks again.
   */
  lemma {:induction false} UntimedIsLost(interval: nat, nextIn: nat, now: nat, inputs: seq<Input>, msg: Message, t: nat,
                                         n: nat, later: seq<Input>)
    requires AllCarryTime(Initial(interval, nextIn, now), inputs)
    requires var s := After(Initial(interval, nextIn, now), inputs);
             && !CarriesTime(s, Apply(Replay(msg), t))
             && s.replay.value.nextExpected - s.replay.value.gapFillCount <= n <= msg.seqNum.value
             && NoAnnouncements(Log(StepOf(s, Apply(Replay(msg), t)).s, later))
    ensures var r := StepOf(After(Initial(interval, nextIn, now), inputs), Apply(Replay(msg), t));
            && r.outcome == Fail && r.out == []
            && NoneCovers(Log(r.s, later), n)
  {
    var s0 := Initial(interval, nextIn, now);
    OutboundOrder(interval, nextIn, now, inputs);
    var s := After(s0, inputs);
    hide StepOf, Log, After, WatchAll;
    OfferLost(s, msg, t, n, WatchAll(Some(START), Log(s0, inputs)).value);
    RunPasses(StepOf(s, Apply(Replay(msg), t)).s, later, n);
  }

  lemma {:induction false} OfferLost(s: SessionView, msg: Message, t: nat, n: nat, w: Observer)
    requires Consistent(s, w) && !CarriesTime(s, Apply(Replay(msg), t))
    requires s.replay.value.nextExpected - s.replay.value.gapFillCount <= n <= msg.seqNum.value
    ensures var r := StepOf(s, Apply(Replay(msg), t));
            r.outcome == Fail && r.out == [] && Behind(r.s, n)
  {
  }

  /** Such runs there are: log on, send a message, be asked for everything, and offer it without a time. */
  function Asked(): seq<Input> {
    LoggingOn(30, 1) + [Apply(Send(Order(2)), 0), RequestFrom(1)]
  }

  lemma {:induction false} UntimedOffer(n: nat, later: seq<Input>)
    requires 1 <= n <= 2
    requires NoAnnouncements(Log(StepOf(After(Initial(30, 1, 0), Asked()), Apply(Replay(Order(2)), 0)).s, later))
    ensures var r := StepOf(After(Initial(30, 1, 0), Asked()), Apply(Replay(Order(2)), 0));
            && r.outcome == Fail && r.out == [] && r.s.replay == Some(ReplayView(1, 2, 3, 0, []))
            && NoneCovers(Log(r.s, later), n)
  {
    var s := After(Initial(30, 1, 0), Asked());
    AskedIs();
    assert StepOf(s, Apply(Replay(Order(2)), 0)).s.replay == Some(ReplayView(1, 2, 3, 0, []));
    hide StepOf, After, Log, AllCarryTime;
    UntimedIsLost(30, 1, 0, Asked(), Order(2), 0, n, later);
  }

  lemma {:induction false} AskedIs()
    ensures var s := After(Initial(30, 1, 0), Asked());
            && AllCarryTime(Initial(30, 1, 0), Asked()) && !CarriesTime(s, Apply(Replay(Order(2)), 0))
            && s.replay == Some(ReplayView(1, 2, 1, 0, []))
  {
    hide StepOf;
    NothingOffered(Initial(30, 1, 0), Asked());
    LogsOn(30, 1);
    var s1 := LoggedOnWith(30, 1);
    RunAppend(Initial(30, 1, 0), LoggingOn(30, 1), [Apply(Send(Order(2)), 0), RequestFrom(1)]);
    RunTwo(s1, Apply(Send(Order(2)), 0), RequestFrom(1));
    OrderSent([Apply(Send(Order(2)), 0)], Order(2), 2);
    RunOne(s1, Apply(Send(Order(2)), 0));
    AnsweredByGapFill(StepOf(s1, Apply(Send(Order(2)), 0)).s, 1);
  }
}
