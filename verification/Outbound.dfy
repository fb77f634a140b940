/** What a session may put on the wire, over whole runs (session/state.rs:422-654, 821-841). */
module Outbound {
  import opened FixMessage
  import opened Replaying
  import opened Session
  import opened SessionRuns

  /**
   * An observer of the wire. It knows the last new number it saw, and the next number due and the
   * last number of the range most recently announced for replay: `due > end` once it has all been
   * replayed.
   */
  datatype Observer = Observer(lastNew: nat, due: nat, end: nat)

  const START := Observer(0, 1, 0)

  /** What the observer accepts next; `None` once it has seen something out of order. */
  function Watch(w: Option<Observer>, o: Output): Option<Observer> {
    if w.None? then None
    else
      var Observer(lastNew, due, end) := w.value;
      match o
      case Transmit(msg, New) =>
        // Only with no replay outstanding, under a number never used before.
        if msg.seqNum.Some? && due > end && msg.seqNum.value > Max(lastNew, end)
        then Some(Observer(msg.seqNum.value, due, end)) else None
      case Transmit(msg, GapFill) =>
        if && msg.msgType.SequenceReset? && msg.gapFillFlag == Some(true)
           && msg.seqNum == Some(due) && msg.newSeqNo.Some? && due < msg.newSeqNo.value <= end + 1
        then Some(Observer(lastNew, msg.newSeqNo.value, end)) else None
      case Transmit(msg, Resent) =>
        if msg.seqNum == Some(due) && due <= end && msg.possDup && msg.origSendingTime.Some? && !msg.GapFilledInReplay()
        then Some(Observer(lastNew, due + 1, end)) else None
      case Raise(ResendRequested(b, e)) =>
        if due > end && b >= 1 then Some(Observer(lastNew, b, e)) else None
      case _ => w
  }

  function WatchAll(w: Option<Observer>, log: seq<Output>): Option<Observer> {
    if log == [] then w else Watch(WatchAll(w, log[..|log| - 1]), log[|log| - 1])
  }

  lemma {:induction false} WatchAppend(w: Option<Observer>, a: seq<Output>, b: seq<Output>)
    ensures WatchAll(w, a + b) == WatchAll(WatchAll(w, a), b)
  {
    if b == [] {
      assert a + b == a;
    } else {
      assert (a + b)[..|a + b| - 1] == a + b[..|b| - 1];
      WatchAppend(w, a, b[..|b| - 1]);
    }
  }

  /** Outputs the observer has no interest in. */
  predicate Unwatched(o: Output) {
    o.Raise? && !o.event.ResendRequested?
  }

  lemma {:induction false} WatchUnwatched(w: Option<Observer>, log: seq<Output>)
    requires forall i :: 0 <= i < |log| ==> Unwatched(log[i])
    ensures WatchAll(w, log) == w
  {
    if log != [] {
      WatchUnwatched(w, log[..|log| - 1]);
    }
  }

  lemma {:induction false} WatchOne(w: Option<Observer>, o: Output)
    ensures WatchAll(w, [o]) == Watch(w, o)
  {
    assert [o][..0] == [];
    assert WatchAll(w, []) == w;
  }

  lemma {:induction false} WatchTwo(w: Option<Observer>, o: Output, o': Output)
    ensures WatchAll(w, [o, o']) == Watch(Watch(w, o), o')
  {
    assert [o, o'] == [o] + [o'];
    WatchAppend(w, [o], [o']);
    WatchOne(w, o);
    WatchOne(Watch(w, o), o');
  }

  /** Deferred messages carry increasing numbers above `lo` and at most `hi`. */
  ghost predicate Ascending(queue: seq<Message>, lo: nat, hi: nat) {
    && (forall i :: 0 <= i < |queue| ==> queue[i].seqNum.Some? && lo < queue[i].seqNum.value <= hi)
    && (forall i, j :: 0 <= i < j < |queue| ==> queue[i].seqNum.value < queue[j].seqNum.value)
  }

  /** The session's own counters agree with what an observer of the wire has seen. */
  ghost predicate Consistent(s: SessionView, w: Observer) {
    && s.WellFormed()
    && w.lastNew <= s.highestSent <= s.highestAccepted
    && w.end <= s.highestAccepted
    && match s.replay
       case None => w.due > w.end
       case Some(r) =>
         && w.due == r.nextExpected - r.gapFillCount && w.end == r.endSeqNo
         && Ascending(r.queue, Max(w.lastNew, r.endSeqNo), s.highestAccepted)
  }

  ghost predicate Follows(s: SessionView, out: seq<Output>, w: Observer) {
    WatchAll(Some(w), out).Some? && Consistent(s, WatchAll(Some(w), out).value)
  }

  /** A message that is retransmitted needs a time; any other offer does not. */
  predicate NeedsTime(r: ReplayView, msg: Message)
    requires msg.seqNum.Some?
  {
    r.nextExpected <= msg.seqNum.value <= r.endSeqNo && !msg.GapFilledInReplay()
  }

  predicate HasTime(msg: Message) {
    msg.origSendingTime.Some? || msg.sendingTime.Some?
  }

  /** An application that is asked for a message it kept, and offers it where it is due, kept one of its two times. */
  predicate CarriesTime(s: SessionView, input: Input) {
    && input.Apply? && input.cmd.Replay? && input.cmd.msg.seqNum.Some? && s.replay.Some?
    && NeedsTime(s.replay.value, input.cmd.msg)
    ==> HasTime(input.cmd.msg)
  }

  predicate AllCarryTime(s: SessionView, inputs: seq<Input>)
    requires s.WellFormed()
  {
    inputs != [] ==>
      var before := inputs[..|inputs| - 1];
      AllCarryTime(s, before) && CarriesTime(After(s, before), inputs[|inputs| - 1])
  }

  // ---------------------------------------------------------------------
  // Each step
  // ---------------------------------------------------------------------

  lemma {:induction false} FollowsFrom(s: SessionView, a: seq<Output>, b: seq<Output>, w: Observer, mid: SessionView)
    requires Follows(mid, a, w)
    requires Follows(s, b, WatchAll(Some(w), a).value)
    ensures Follows(s, a + b, w)
  {
    WatchAppend(Some(w), a, b);
  }

  lemma {:induction false} NewFollows(s: SessionView, msg: Message, w: Observer)
    requires s.replay.None? && Consistent(s, w) && msg.seqNum.Some?
    requires Max(w.lastNew, w.end) < msg.seqNum.value <= s.highestAccepted
    ensures Follows(DispatchOutbound(s, msg).s, DispatchOutbound(s, msg).out, w)
    ensures WatchAll(Some(w), DispatchOutbound(s, msg).out).value == w.(lastNew := msg.seqNum.value)
  {
    var t := [Transmit(msg, New), Raise(RawMessageSent(msg))];
    WatchTwo(Some(w), t[0], t[1]);
    var rest := if msg.msgType.Logon? && s.peerLogonReceived then [Raise(LoggedOn)] else [];
    WatchAppend(Some(w), t, rest);
    WatchUnwatched(WatchAll(Some(w), t), rest);
    assert DispatchOutbound(s, msg).out == t + rest;
  }

  lemma {:induction false} QueueFollows(s: SessionView, queue: seq<Message>, w: Observer)
    requires s.replay.None? && Consistent(s, w)
    requires Ascending(queue, Max(w.lastNew, w.end), s.highestAccepted)
    ensures Follows(DispatchQueue(s, queue).s, DispatchQueue(s, queue).out, w)
    decreases |queue|
  {
    hide DispatchOutbound, Consistent;
    if queue != [] {
      NewFollows(s, queue[0], w);
      var first := DispatchOutbound(s, queue[0]);
      if first.outcome != Close {
        QueueFollows(first.s, queue[1..], w.(lastNew := queue[0].seqNum.value));
        FollowsFrom(DispatchQueue(first.s, queue[1..]).s, first.out, DispatchQueue(first.s, queue[1..]).out, w, first.s);
      }
    } else {
      assert WatchAll(Some(w), []) == Some(w);
    }
  }

  lemma {:induction false} SendFollows(s: SessionView, msg: Message, now: nat, w: Observer)
    requires Consistent(s, w)
    ensures Follows(SendMessage(s, msg, now).s, SendMessage(s, msg, now).out, w)
  {
    assert WatchAll(Some(w), []) == Some(w);
    if !Refused(s, msg) {
      var timers := if msg.IsAdmin() then s.timers else s.timers.(nextOut := now + s.interval);
      var s1 := s.(highestAccepted := msg.seqNum.value, timers := timers);
      if s.replay.None? {
        NewFollows(s1, msg, w);
      }
    }
  }

  lemma {:induction false} FillFollows(s: SessionView, range: Range, w: Observer)
    requires w.due == range.first <= range.last <= w.end <= s.highestAccepted
    requires w.lastNew <= s.highestSent <= s.highestAccepted
    ensures var t := SendGapFill(s, range);
            && WatchAll(Some(w), t.out) == Some(w.(due := range.last + 1))
            && t.s == s.(highestSent := t.s.highestSent)
            && w.lastNew <= t.s.highestSent <= s.highestAccepted
  {
    var msg := GapFillMessage(range);
    WatchTwo(Some(w), Transmit(msg, GapFill), Raise(RawMessageSent(msg)));
  }

  lemma {:induction false} RetransmissionWatched(s: SessionView, msg: Message, gapFill: Option<Range>, w: Observer)
    requires msg.seqNum.Some? && HasTime(msg) && !msg.GapFilledInReplay()
    requires w.lastNew <= s.highestSent <= s.highestAccepted && w.end <= s.highestAccepted
    requires w.due <= msg.seqNum.value <= w.end
    requires gapFill == if w.due < msg.seqNum.value then Some(Range(w.due, msg.seqNum.value - 1)) else None
    ensures var t := Retransmission(s, msg, gapFill);
            && WatchAll(Some(w), t.out) == Some(w.(due := msg.seqNum.value + 1))
            && w.lastNew <= t.s.highestSent <= s.highestAccepted
  {
    var fill, w2 := Step(s, [], Continue), w.(due := msg.seqNum.value);
    assert WatchAll(Some(w), []) == Some(w);
    if gapFill.Some? {
      FillFollows(s, gapFill.value, w);
      fill := SendGapFill(s, gapFill.value);
    }
    hide SendGapFill, WatchAll;
    ResendWatched(fill.s, msg, w2);
    WatchAppend(Some(w), fill.out, Transmitted(fill.s, ResentMessage(msg), Resent).out);
  }

  lemma {:induction false} ResendWatched(s: SessionView, msg: Message, w: Observer)
    requires msg.seqNum.Some? && HasTime(msg) && !msg.GapFilledInReplay()
    requires w.due == msg.seqNum.value <= w.end
    ensures WatchAll(Some(w), Transmitted(s, ResentMessage(msg), Resent).out) == Some(w.(due := w.due + 1))
  {
    var out := Transmitted(s, ResentMessage(msg), Resent).out;
    WatchTwo(Some(w), out[0], out[1]);
  }

  lemma {:induction false} RetransmitFollows(s: SessionView, msg: Message, w: Observer)
    requires Consistent(s, w) && s.replay.Some? && msg.seqNum.Some?
    requires NeedsTime(s.replay.value, msg) && HasTime(msg)
    ensures Follows(ReplayMessage(s, msg).s, ReplayMessage(s, msg).out, w)
  {
    hide Retransmission, WatchAll;
    var r, n := s.replay.value, msg.seqNum.value;
    RetransmissionWatched(s.(replay := Some(OfferView(r, n, false))), msg, OfferStep(r, n, false).gapFill, w);
  }

  lemma {:induction false} UntimedBreaks(s: SessionView, msg: Message, w: Observer)
    requires Consistent(s, w) && s.replay.Some? && msg.seqNum.Some?
    requires NeedsTime(s.replay.value, msg) && !HasTime(msg)
    ensures !Follows(ReplayMessage(s, msg).s, ReplayMessage(s, msg).out, w)
  {
    assert WatchAll(Some(w), []) == Some(w);
  }

  lemma {:induction false} SkippedFollows(s: SessionView, msg: Message, w: Observer)
    requires Consistent(s, w) && s.replay.Some? && msg.seqNum.Some?
    requires !NeedsTime(s.replay.value, msg)
    ensures Follows(ReplayMessage(s, msg).s, ReplayMessage(s, msg).out, w)
  {
    assert WatchAll(Some(w), []) == Some(w);
  }

  /**
   * `offer` commits before the times are looked at. So the replay stays in step with the wire
   * exactly when a message that would be retransmitted carries a time.
   */
  lemma {:induction false} ReplayFollows(s: SessionView, msg: Message, w: Observer)
    requires Consistent(s, w) && s.replay.Some? && msg.seqNum.Some?
    ensures Follows(ReplayMessage(s, msg).s, ReplayMessage(s, msg).out, w)
            <==> (NeedsTime(s.replay.value, msg) ==> HasTime(msg))
  {
    hide ReplayMessage, Follows;
    if !NeedsTime(s.replay.value, msg) {
      SkippedFollows(s, msg, w);
    } else if HasTime(msg) {
      RetransmitFollows(s, msg, w);
    } else {
      UntimedBreaks(s, msg, w);
    }
  }

  /** The replayed range is used up once its remainder is filled. */
  lemma {:induction false} TrailingFollows(s: SessionView, w: Observer)
    requires Consistent(s, w) && s.replay.Some?
    ensures var fill := FillTrailing(s);
            && WatchAll(Some(w), fill.out).Some?
            && var w' := WatchAll(Some(w), fill.out).value;
               w'.lastNew == w.lastNew && w'.end == w.end && Consistent(fill.s.(replay := None), w')
  {
    assert WatchAll(Some(w), []) == Some(w);
    var trailing := TrailingGapFill(s.replay.value);
    if trailing.Some? {
      FillFollows(s, trailing.value, w);
    }
  }

  lemma {:induction false} CompleteFollows(s: SessionView, w: Observer)
    requires Consistent(s, w)
    ensures Follows(CompleteReplay(s).s, CompleteReplay(s).out, w)
  {
    if s.replay.None? {
      QuietFollows(s, s, [], w);
    } else {
      TrailingFollows(s, w);
      assert Ascending(s.replay.value.queue, Max(w.lastNew, w.end), s.highestAccepted);
      hide DispatchQueue, FillTrailing, Consistent, Ascending, WatchAll;
      var fill := FillTrailing(s);
      var closed, w1 := fill.s.(replay := None), WatchAll(Some(w), fill.out).value;
      FillKeepsAccepted(s);
      QueueFollows(closed, s.replay.value.queue, w1);
      var queue := DispatchQueue(closed, s.replay.value.queue);
      FollowsFrom(queue.s, fill.out, queue.out, w, closed);
      SyncFollows(queue.s, WatchAll(Some(w), fill.out + queue.out).value);
      var sync := RequestSyncTestRequest(queue.s);
      FollowsFrom(sync.s, fill.out + queue.out, sync.out, w, queue.s);
    }
  }

  lemma {:induction false} FillKeepsAccepted(s: SessionView)
    requires s.WellFormed() && s.replay.Some?
    ensures FillTrailing(s).s.highestAccepted == s.highestAccepted
  {
  }

  lemma {:induction false} SyncFollows(s: SessionView, w: Observer)
    requires Consistent(s, w)
    ensures Follows(RequestSyncTestRequest(s).s, RequestSyncTestRequest(s).out, w)
  {
    QuietFollows(RequestSyncTestRequest(s).s, s, RequestSyncTestRequest(s).out, w);
  }

  /** A step that leaves the counters alone and emits nothing the observer looks at. */
  lemma {:induction false} QuietFollows(s': SessionView, s: SessionView, out: seq<Output>, w: Observer)
    requires Consistent(s, w)
    requires s'.highestSent == s.highestSent && s'.highestAccepted == s.highestAccepted && s'.replay == s.replay
    requires forall i :: 0 <= i < |out| ==> Unwatched(out[i])
    ensures Follows(s', out, w)
  {
    WatchUnwatched(Some(w), out);
  }

  lemma {:induction false} OpenFollows(s: SessionView, msg: Message, w: Observer)
    requires Consistent(s, w)
    ensures Follows(OpenReplay(s, msg).s, OpenReplay(s, msg).out, w)
  {
    assert WatchAll(Some(w), []) == Some(w);
    var t := OpenReplay(s, msg);
    if t.outcome != Fail {
      WatchOne(Some(w), t.out[0]);
    }
  }

  lemma {:induction false} PromptFollows(s: SessionView, msg: Message, now: nat, w: Observer)
    requires Consistent(s, w)
    ensures Follows(Prompted(s, msg, now).s, Prompted(s, msg, now).out, w)
  {
    hide OpenReplay, Consistent, WatchAll;
    if msg.msgType.ResendRequest? {
      OpenFollows(s, msg, w);
    } else {
      QuietFollows(Prompted(s, msg, now).s, s, Prompted(s, msg, now).out, w);
    }
  }

  lemma {:induction false} DispatchFollows(s: SessionView, msg: Message, inSequence: bool, now: nat, w: Observer)
    requires Consistent(s, w) && msg.seqNum.Some?
    ensures var t := DispatchMessage(s, msg, inSequence, now);
            Follows(t.s, t.out, w)
  {
    hide Prompted, Consistent, WatchAll;
    if Delivered(msg) {
      QuietFollows(s, s, [Raise(MessageReceived(msg.seqNum.value, msg))], w);
    } else {
      PromptFollows(s, msg, now, w);
      var p, advanced := Prompted(s, msg, now), [Raise(InboundAdvanced(s.nextIn))];
      QuietFollows(p.s, p.s, advanced, WatchAll(Some(w), p.out).value);
      FollowsFrom(p.s, p.out, advanced, w, p.s);
    }
  }

  lemma {:induction false} HandleFollows(s: SessionView, msg: Message, now: nat, w: Observer)
    requires Consistent(s, w)
    ensures var t := HandleSessionMessage(s, msg, now);
            Follows(t.s, t.out, w)
  {
    hide DispatchMessage, RequestLogout;
    var t := HandleSessionMessage(s, msg, now);
    if t.s == s && t.out == [] {
      QuietFollows(t.s, s, t.out, w);
    } else if msg.seqNum.value == s.nextIn {
      InSequenceFollows(s, msg, now, w);
    } else if msg.seqNum.value > s.nextIn {
      GapFollows(s, msg, now, w);
    } else {
      LogoutFollows(s, TOO_LOW, now, w);
    }
  }

  lemma {:induction false} LogoutFollows(s: SessionView, text: string, now: nat, w: Observer)
    requires Consistent(s, w)
    ensures Follows(RequestLogout(s, text, now).s, RequestLogout(s, text, now).out, w)
  {
    QuietFollows(RequestLogout(s, text, now).s, s, RequestLogout(s, text, now).out, w);
  }

  lemma {:induction false} GapFollows(s: SessionView, msg: Message, now: nat, w: Observer)
    requires Consistent(s, w) && msg.seqNum.Some?
    ensures Follows(HandleGap(s, msg, now).s, HandleGap(s, msg, now).out, w)
  {
    hide DispatchMessage;
    var ask := AskForGap(s, msg);
    QuietFollows(ask.s, s, ask.out, w);
    QuietFollows(ask.s.(peerLogoutPending := true), s, ask.out, w);
    hide AskForGap;
    if msg.msgType.ResendRequest? {
      var d := DispatchMessage(ask.s, msg, false, now);
      DispatchFollows(ask.s, msg, false, now, WatchAll(Some(w), ask.out).value);
      FollowsFrom(d.s, ask.out, d.out, w, ask.s);
    }
  }

  lemma {:induction false} InSequenceFollows(s: SessionView, msg: Message, now: nat, w: Observer)
    requires Consistent(s, w) && msg.seqNum.Some?
    requires msg.msgType.SequenceReset? ==> msg.newSeqNo.Some?
    ensures Follows(HandleInSequence(s, msg, now).s, HandleInSequence(s, msg, now).out, w)
  {
    hide DispatchMessage, RequestLogout;
    assert WatchAll(Some(w), []) == Some(w);
    if NumberAfter(msg) > msg.seqNum.value {
      var s1 := Advanced(s, msg);
      var d := DispatchMessage(s1, msg, true, now);
      DispatchFollows(s1, msg, true, now, w);
      if d.outcome == Continue && d.s.peerLogoutPending && d.s.rerequest.None? {
        var logout := RequestLogout(d.s, LOGOUT_RECEIVED, now);
        LogoutFollows(d.s, LOGOUT_RECEIVED, now, WatchAll(Some(w), d.out).value);
        FollowsFrom(logout.s, d.out, logout.out, w, d.s);
      }
    }
  }

  lemma {:induction false} ReceiveFollows(s: SessionView, msg: Message, now: nat, w: Observer)
    requires Consistent(s, w)
    ensures Follows(OnMessage(s, msg, now).s, OnMessage(s, msg, now).out, w)
  {
    hide HandleSessionMessage;
    var s1 := s.(timers := s.timers.(nextIn := now + s.interval, missed := 0));
    var received := [Raise(RawMessageReceived(msg))];
    QuietFollows(s1, s, received, w);
    if s.closing.None? {
      HandleFollows(s1, msg, now, WatchAll(Some(w), received).value);
      var h := HandleSessionMessage(s1, msg, now);
      FollowsFrom(h.s, received, h.out, w, s1);
    }
  }

  lemma {:induction false} StartFollows(s: SessionView, logon: Message, now: nat, w: Observer)
    requires Consistent(s, w)
    ensures Follows(Start(s, logon, now).s, Start(s, logon, now).out, w)
  {
    hide HandleSessionMessage, Consistent, WatchAll;
    var h := HandleSessionMessage(s, logon, now);
    HandleFollows(s, logon, now, w);
    if h.outcome == Continue {
      StartTailFollows(h.s, WatchAll(Some(w), h.out).value);
      var tail := StartTail(h.s);
      FollowsFrom(tail.s, h.out, tail.out, w, h.s);
      assert Start(s, logon, now).out == h.out + tail.out;
    }
  }

  lemma {:induction false} StartTailFollows(s: SessionView, w: Observer)
    requires Consistent(s, w)
    ensures Follows(StartTail(s).s, StartTail(s).out, w)
  {
    QuietFollows(StartTail(s).s, s, StartTail(s).out, w);
  }

  lemma {:induction false} CommandFollows(s: SessionView, cmd: Command, now: nat, w: Observer)
    requires Consistent(s, w)
    ensures Follows(OnCommand(s, cmd, now).s, OnCommand(s, cmd, now).out, w) <==> CarriesTime(s, Apply(cmd, now))
  {
    hide SendMessage, ReplayMessage, CompleteReplay, RequestLogout;
    var s1 := s.(timers := s.timers.(nextOut := now + s.interval));
    match cmd
    case Send(msg) => SendFollows(s, msg, now, w);
    case Replay(msg) => ReplayAnyFollows(s1, msg, w);
    case ReplayComplete => CompleteFollows(s1, w);
    case Disconnect => LogoutFollows(s, DISCONNECT_REQUESTED, now, w);
  }

  lemma {:induction false} ReplayAnyFollows(s: SessionView, msg: Message, w: Observer)
    requires Consistent(s, w)
    ensures Follows(ReplayMessage(s, msg).s, ReplayMessage(s, msg).out, w)
            <==> (msg.seqNum.Some? && s.replay.Some? && NeedsTime(s.replay.value, msg) ==> HasTime(msg))
  {
    if msg.seqNum.Some? && s.replay.Some? {
      ReplayFollows(s, msg, w);
    } else {
      QuietFollows(s, s, [], w);
    }
  }

  lemma {:induction false} TickFollows(s: SessionView, now: nat, w: Observer)
    requires Consistent(s, w)
    ensures Follows(OnTimeout(s, now).s, OnTimeout(s, now).out, w)
  {
    QuietFollows(OnTimeout(s, now).s, s, OnTimeout(s, now).out, w);
  }

  lemma {:induction false} StepFollows(s: SessionView, input: Input, w: Observer)
    requires Consistent(s, w)
    ensures Follows(StepOf(s, input).s, StepOf(s, input).out, w) <==> CarriesTime(s, input)
  {
    hide OnMessage, OnCommand, OnTimeout, Start;
    match input
    case Receive(msg, now) => ReceiveFollows(s, msg, now, w);
    case Apply(cmd, now) => CommandFollows(s, cmd, now, w);
    case Tick(now) => TickFollows(s, now, w);
    case AskLogon => QuietFollows(s, s, RequestLogon(s).out, w);
    case PeerLogon(logon, now) => StartFollows(s, logon, now, w);
    case PeerClosed => QuietFollows(s, s, [Raise(Disconnected)], w);
  }

  // ---------------------------------------------------------------------
  // Whole runs
  // ---------------------------------------------------------------------

  lemma {:induction false} RunFollows(s: SessionView, inputs: seq<Input>, w: Observer)
    requires Consistent(s, w) && AllCarryTime(s, inputs)
    ensures Follows(After(s, inputs), Log(s, inputs), w)
  {
    assert s.WellFormed();
    hide StepOf, Consistent;
    if inputs == [] {
      assert WatchAll(Some(w), []) == Some(w);
    } else {
      var before, last := inputs[..|inputs| - 1], inputs[|inputs| - 1];
      RunFollows(s, before, w);
      var mid := After(s, before);
      StepFollows(mid, last, WatchAll(Some(w), Log(s, before)).value);
      FollowsFrom(StepOf(mid, last).s, Log(s, before), StepOf(mid, last).out, w, mid);
    }
  }

  /**
   * Over any run in which what is retransmitted carries a time, whatever fails along the way, an observer of the wire never sees a new message
   * while a replay is outstanding, nor a new number that is not beyond every earlier new number
   * and every replayed one; each replay goes through its range once, in order, and never outside
   * it; and `highestSent <= highestAccepted` throughout.
   */
  lemma {:induction false} OutboundOrder(interval: nat, nextIn: nat, now: nat, inputs: seq<Input>)
    requires AllCarryTime(Initial(interval, nextIn, now), inputs)
    ensures var s := Initial(interval, nextIn, now);
            Follows(After(s, inputs), Log(s, inputs), START)
  {
    RunFollows(Initial(interval, nextIn, now), inputs, START);
  }

  /** The session is in step with the wire after each call of a run. */
  ghost predicate InStep(s: SessionView, inputs: seq<Input>, w: Observer)
    requires s.WellFormed()
  {
    && (inputs != [] ==> InStep(s, inputs[..|inputs| - 1], w))
    && Follows(After(s, inputs), Log(s, inputs), w)
  }

  /** And only such runs: it is in step throughout if and only if what is retransmitted carries a time. */
  lemma {:induction false} InStepThroughout(s: SessionView, inputs: seq<Input>, w: Observer)
    requires Consistent(s, w)
    ensures InStep(s, inputs, w) <==> AllCarryTime(s, inputs)
  {
    assert s.WellFormed();
    hide StepOf, Consistent;
    if inputs == [] {
      assert WatchAll(Some(w), []) == Some(w);
    } else {
      var before, last := inputs[..|inputs| - 1], inputs[|inputs| - 1];
      InStepThroughout(s, before, w);
      if InStep(s, before, w) {
        var mid, r := After(s, before), StepOf(After(s, before), last);
        StepFollows(mid, last, WatchAll(Some(w), Log(s, before)).value);
        WatchAppend(Some(w), Log(s, before), r.out);
      }
    }
  }

  function NewNumbers(log: seq<Output>): seq<nat> {
    if log == [] then []
    else
      var last := log[|log| - 1];
      NewNumbers(log[..|log| - 1])
      + if last.Transmit? && last.role == New && last.msg.seqNum.Some? then [last.msg.seqNum.value] else []
  }

  // ---------------------------------------------------------------------
  // Accepted messages go out once each, in the order they were accepted
  // ---------------------------------------------------------------------

  predicate SendsNew(o: Output) {
    o.Transmit? && o.role == New
  }

  /** What the wire sees for the first time. */
  function NewMessages(log: seq<Output>): seq<Message> {
    if log == [] then []
    else
      var last := log[|log| - 1];
      NewMessages(log[..|log| - 1]) + if SendsNew(last) then [last.msg] else []
  }

  lemma {:induction false} NewMessagesAppend(a: seq<Output>, b: seq<Output>)
    ensures NewMessages(a + b) == NewMessages(a) + NewMessages(b)
  {
    if b == [] {
      assert a + b == a;
    } else {
      assert (a + b)[..|a + b| - 1] == a + b[..|b| - 1];
      NewMessagesAppend(a, b[..|b| - 1]);
    }
  }

  lemma {:induction false} NoNewMessages(log: seq<Output>)
    requires forall i :: 0 <= i < |log| ==> !SendsNew(log[i])
    ensures NewMessages(log) == []
  {
    if log != [] {
      NoNewMessages(log[..|log| - 1]);
    }
  }

  /** The messages held back behind a replay. */
  function Deferred(s: SessionView): seq<Message> {
    if s.replay.Some? then s.replay.value.queue else []
  }

  /** The message a call accepts for sending, if it accepts one. */
  function AcceptedBy(s: SessionView, input: Input): seq<Message>
    requires s.WellFormed()
  {
    if input.Apply? && input.cmd.Send? && StepOf(s, input).outcome != Fail then [input.cmd.msg] else []
  }

  function Accepted(s: SessionView, inputs: seq<Input>): seq<Message>
    requires s.WellFormed()
  {
    if inputs == [] then []
    else
      var before := inputs[..|inputs| - 1];
      Accepted(s, before) + AcceptedBy(After(s, before), inputs[|inputs| - 1])
  }

  lemma {:induction false} NewMessagesOfOne(msg: Message, rest: seq<Output>)
    requires forall i :: 0 <= i < |rest| ==> !SendsNew(rest[i])
    ensures NewMessages([Transmit(msg, New)] + rest) == [msg]
  {
    NewMessagesAppend([Transmit(msg, New)], rest);
    NoNewMessages(rest);
    assert [Transmit(msg, New)][..0] == [];
  }

  lemma {:induction false} NewMessagesOfDispatch(s: SessionView, msg: Message)
    requires msg.seqNum.Some?
    ensures NewMessages(DispatchOutbound(s, msg).out) == [msg]
  {
    hide NewMessages;
    var rest := [Raise(RawMessageSent(msg))]
      + if msg.msgType.Logon? && s.peerLogonReceived then [Raise(LoggedOn)] else [];
    assert DispatchOutbound(s, msg).out == [Transmit(msg, New)] + rest;
    NewMessagesOfOne(msg, rest);
  }

  lemma {:induction false} NewMessagesOfQueue(s: SessionView, queue: seq<Message>)
    requires forall i :: 0 <= i < |queue| ==> queue[i].seqNum.Some?
    requires DispatchQueue(s, queue).outcome != Close
    ensures NewMessages(DispatchQueue(s, queue).out) == queue
    decreases |queue|
  {
    hide DispatchOutbound;
    if queue != [] {
      var first := DispatchOutbound(s, queue[0]);
      NewMessagesOfDispatch(s, queue[0]);
      NewMessagesOfQueue(first.s, queue[1..]);
      NewMessagesAppend(first.out, DispatchQueue(first.s, queue[1..]).out);
    }
  }

  /** One call: what was held back and what is accepted now has either gone out or is held back. */
  ghost predicate Conserves(s: SessionView, accepted: seq<Message>, r: Step) {
    Deferred(s) + accepted == NewMessages(r.out) + Deferred(r.s)
  }

  lemma {:induction false} SendConserves(s: SessionView, msg: Message, now: nat)
    requires s.WellFormed()
    ensures var r := SendMessage(s, msg, now);
            Conserves(s, if r.outcome != Fail then [msg] else [], r)
  {
    if !Refused(s, msg) {
      if s.replay.Some? {
        assert NewMessages([]) == [];
      } else {
        var timers := if msg.IsAdmin() then s.timers else s.timers.(nextOut := now + s.interval);
        NewMessagesOfDispatch(s.(highestAccepted := msg.seqNum.value, timers := timers), msg);
      }
    }
  }

  lemma {:induction false} CompleteConserves(s: SessionView)
    requires s.WellFormed() && CompleteReplay(s).outcome != Close
    ensures Conserves(s, [], CompleteReplay(s))
  {
    hide DispatchQueue;
    if s.replay.Some? {
      var fill := FillTrailing(s);
      var queue := DispatchQueue(fill.s.(replay := None), s.replay.value.queue);
      NewMessagesOfQueue(fill.s.(replay := None), s.replay.value.queue);
      NoNewMessages(fill.out);
      NewMessagesAppend(fill.out, queue.out);
      if queue.s.closing.None? {
        NoNewMessages(RequestSyncTestRequest(queue.s).out);
        NewMessagesAppend(fill.out + queue.out, RequestSyncTestRequest(queue.s).out);
      }
    }
  }

  /** What is held back stays as it is. */
  ghost predicate HoldsBackTheSame(s: SessionView, s': SessionView) {
    || s'.replay == s.replay
    || (s.replay.None? && s'.replay.Some? && s'.replay.value.queue == [])
    || (s.replay.Some? && s'.replay.Some? && s'.replay.value.queue == s.replay.value.queue)
  }

  ghost predicate SendsNothingNew(s: SessionView, r: Step) {
    HoldsBackTheSame(s, r.s) && forall i :: 0 <= i < |r.out| ==> !SendsNew(r.out[i])
  }

  ghost predicate SendsNothing(s: SessionView, r: Step) {
    HoldsBackTheSame(s, r.s) && forall i :: 0 <= i < |r.out| ==> !r.out[i].Transmit?
  }

  lemma {:induction false} NothingNewConserves(s: SessionView, r: Step)
    requires s.WellFormed() && r.s.WellFormed() && SendsNothingNew(s, r)
    ensures Conserves(s, [], r)
  {
    NoNewMessages(r.out);
  }

  lemma {:induction false} HandleSendsNothing(s: SessionView, msg: Message, now: nat)
    ensures SendsNothing(s, HandleSessionMessage(s, msg, now))
  {
    hide HandleInSequence, HandleGap, RequestLogout, SendsNothing;
    LogoutSendsNothing(s, TOO_LOW, now);
    if msg.seqNum.Some? {
      GapSendsNothing(s, msg, now);
      if msg.msgType.SequenceReset? ==> msg.newSeqNo.Some? {
        InSequenceSendsNothing(s, msg, now);
      }
    }
    IdleSendsNothing(s);
  }

  lemma {:induction false} IdleSendsNothing(s: SessionView)
    ensures SendsNothing(s, Step(s, [], Fail))
  {
  }

  lemma {:induction false} GapSendsNothing(s: SessionView, msg: Message, now: nat)
    requires msg.seqNum.Some?
    ensures SendsNothing(s, HandleGap(s, msg, now))
  {
    hide DispatchMessage;
    DispatchSendsNothing(AskForGap(s, msg).s, msg, false, now);
  }

  lemma {:induction false} InSequenceSendsNothing(s: SessionView, msg: Message, now: nat)
    requires msg.seqNum.Some?
    requires msg.msgType.SequenceReset? ==> msg.newSeqNo.Some?
    ensures SendsNothing(s, HandleInSequence(s, msg, now))
  {
    hide DispatchMessage, RequestLogout;
    var d := DispatchMessage(Advanced(s, msg), msg, true, now);
    DispatchSendsNothing(Advanced(s, msg), msg, true, now);
    LogoutSendsNothing(d.s, LOGOUT_RECEIVED, now);
  }

  lemma {:induction false} LogoutSendsNothing(s: SessionView, text: string, now: nat)
    ensures SendsNothing(s, RequestLogout(s, text, now))
  {
  }

  lemma {:induction false} DispatchSendsNothing(s: SessionView, msg: Message, inSequence: bool, now: nat)
    requires msg.seqNum.Some?
    ensures SendsNothing(s, DispatchMessage(s, msg, inSequence, now))
  {
    hide Prompted;
    PromptSendsNothing(s, msg, now);
  }

  lemma {:induction false} PromptSendsNothing(s: SessionView, msg: Message, now: nat)
    ensures SendsNothing(s, Prompted(s, msg, now))
  {
  }

  lemma {:induction false} ReceiveConserves(s: SessionView, msg: Message, now: nat)
    requires s.WellFormed()
    ensures Conserves(s, [], OnMessage(s, msg, now))
  {
    hide HandleSessionMessage;
    HandleSendsNothing(s.(timers := s.timers.(nextIn := now + s.interval, missed := 0)), msg, now);
    NothingNewConserves(s, OnMessage(s, msg, now));
  }

  lemma {:induction false} StartConserves(s: SessionView, logon: Message, now: nat)
    requires s.WellFormed()
    ensures Conserves(s, [], Start(s, logon, now))
  {
    hide HandleSessionMessage;
    HandleSendsNothing(s, logon, now);
    NothingNewConserves(s, Start(s, logon, now));
  }

  lemma {:induction false} TickConserves(s: SessionView, now: nat)
    requires s.WellFormed()
    ensures Conserves(s, [], OnTimeout(s, now))
  {
    NothingNewConserves(s, OnTimeout(s, now));
  }

  lemma {:induction false} CommandConserves(s: SessionView, cmd: Command, now: nat)
    requires s.WellFormed() && (cmd.ReplayComplete? ==> OnCommand(s, cmd, now).outcome != Close)
    ensures Conserves(s, AcceptedBy(s, Apply(cmd, now)), OnCommand(s, cmd, now))
  {
    hide SendMessage, CompleteReplay, ReplayMessage, Conserves, Deferred;
    var s1 := s.(timers := s.timers.(nextOut := now + s.interval));
    match cmd
    case Send(msg) => SendConserves(s, msg, now);
    case ReplayComplete =>
      CompleteConserves(s1);
      SameDeferred(s, s1, CompleteReplay(s1));
    case Replay(msg) =>
      ReplaySendsNothingNew(s1, msg);
      NothingNewConserves(s1, ReplayMessage(s1, msg));
      SameDeferred(s, s1, ReplayMessage(s1, msg));
    case Disconnect =>
      NothingNewConserves(s, OnCommand(s, cmd, now));
  }

  lemma {:induction false} StepConserves(s: SessionView, input: Input)
    requires s.WellFormed()
    requires input.Apply? && input.cmd.ReplayComplete? ==> StepOf(s, input).outcome != Close
    ensures Conserves(s, AcceptedBy(s, input), StepOf(s, input))
  {
    hide OnMessage, OnCommand, OnTimeout, Start, Conserves;
    match input
    case Receive(msg, now) => ReceiveConserves(s, msg, now);
    case PeerLogon(logon, now) => StartConserves(s, logon, now);
    case Apply(cmd, now) => CommandConserves(s, cmd, now);
    case Tick(now) => TickConserves(s, now);
    case AskLogon => NothingNewConserves(s, RequestLogon(s));
    case PeerClosed => NothingNewConserves(s, StepOf(s, input));
  }

  lemma {:induction false} SameDeferred(s: SessionView, s1: SessionView, r: Step)
    requires s.WellFormed() && s1.WellFormed() && r.s.WellFormed() && s.replay == s1.replay
    requires Conserves(s1, [], r)
    ensures Conserves(s, [], r)
  {
  }

  lemma {:induction false} ReplaySendsNothingNew(s: SessionView, msg: Message)
    requires s.WellFormed()
    ensures SendsNothingNew(s, ReplayMessage(s, msg))
  {
  }

  lemma {:induction false} Regroup(sent: seq<Message>, held: seq<Message>, accepted: seq<Message>, sent': seq<Message>, held': seq<Message>)
    requires held + accepted == sent' + held'
    ensures sent + held + accepted == sent + sent' + held'
  {
    assert sent + held + accepted == sent + (held + accepted);
  }

  /** As long as the session is not closed, every accepted message is on the wire or held back, in order. */
  lemma {:induction false} AcceptedAreSentInOrder(s: SessionView, inputs: seq<Input>)
    requires s.WellFormed() && s.replay.None?
    requires NeverCloses(s, inputs)
    ensures Accepted(s, inputs) == NewMessages(Log(s, inputs)) + Deferred(After(s, inputs))
  {
    if inputs != [] {
      hide StepOf, AcceptedBy, NewMessages, Deferred;
      var n := |inputs| - 1;
      var before, mid := inputs[..n], After(s, inputs[..n]);
      AcceptedAreSentInOrder(s, before);
      StepConserves(mid, inputs[n]);
      var r := StepOf(mid, inputs[n]);
      NewMessagesAppend(Log(s, before), r.out);
      Regroup(NewMessages(Log(s, before)), Deferred(mid), AcceptedBy(mid, inputs[n]), NewMessages(r.out), Deferred(r.s));
    } else {
      assert NewMessages([]) == [];
    }
  }

  // ---------------------------------------------------------------------
  // Reading the observer's verdict
  // ---------------------------------------------------------------------

  /** What the observer accepts puts new numbers on the wire in strictly increasing order. */
  lemma {:induction false} NewNumbersIncrease(log: seq<Output>)
    requires WatchAll(Some(START), log).Some?
    ensures StrictlyIncreasing(NewNumbers(log))
    ensures forall n :: n in NewNumbers(log) ==> n <= WatchAll(Some(START), log).value.lastNew
  {
    if log != [] {
      var before := NewNumbers(log[..|log| - 1]);
      NewNumbersIncrease(log[..|log| - 1]);
      assert forall i :: 0 <= i < |before| ==> before[i] in before;
    }
  }

  /** The stretch of numbers an output replays, if it replays any. */
  function ReplayedBy(o: Output): seq<Piece> {
    if o.Raise? || o.role == New || o.msg.seqNum.None? then []
    else if o.role == Resent then [Single(o.msg.seqNum.value)]
    else if o.msg.newSeqNo.Some? && o.msg.newSeqNo.value > 0
         then [Fill(Range(o.msg.seqNum.value, o.msg.newSeqNo.value - 1))]
    else []
  }

  function Replayed(log: seq<Output>): seq<Piece> {
    if log == [] then [] else Replayed(log[..|log| - 1]) + ReplayedBy(log[|log| - 1])
  }

  predicate Announces(o: Output) {
    o.Raise? && o.event.ResendRequested?
  }

  /** From the announcement of a range, what is replayed runs end to end up to what is now due. */
  lemma {:induction false} ReplayedSoFar(w: Observer, log: seq<Output>)
    requires WatchAll(Some(w), log).Some?
    requires forall i :: 0 <= i < |log| ==> !Announces(log[i])
    ensures var w' := WatchAll(Some(w), log).value;
            Tiles(Replayed(log), w.due, w'.due) && w'.end == w.end && (w'.due <= w.end + 1 || w'.due == w.due)
  {
    if log != [] {
      var before, last := log[..|log| - 1], log[|log| - 1];
      ReplayedSoFar(w, before);
      var mid := WatchAll(Some(w), before).value;
      var piece := ReplayedBy(last);
      assert Tiles(piece, mid.due, Watch(Some(mid), last).value.due) by {
        if piece != [] {
          assert piece[1..] == [];
        }
      }
      TilesAppend(Replayed(before), piece, w.due, mid.due, Watch(Some(mid), last).value.due);
    }
  }

  /**
   * Between the announcement of a range and the next new message, or the next announcement, what
   * the session sends covers the announced range exactly once, in order.
   */
  lemma {:induction false} ReplaysAreWhole(log: seq<Output>, i: nat, j: nat)
    requires WatchAll(Some(START), log).Some? && i < j < |log|
    requires Announces(log[i]) && (Announces(log[j]) || (log[j].Transmit? && log[j].role == New))
    requires forall k :: i < k < j ==> !Announces(log[k])
    ensures var asked := log[i].event;
            Tiles(Replayed(log[i + 1..j]), asked.beginSeqNo, Max(asked.beginSeqNo, asked.endSeqNo + 1))
  {
    hide WatchAll, Replayed;
    WatchPrefix(Some(START), log, j + 1);
    WatchSnoc(Some(START), log, j);
    WatchPrefix(Some(START), log, i + 1);
    WatchSnoc(Some(START), log, i);
    var at, between := log[..i + 1], log[i + 1..j];
    assert log[..j] == at + between;
    WatchAppend(Some(START), at, between);
    var w := WatchAll(Some(START), at).value;
    ReplayedSoFar(w, between);
    TilesBounds(Replayed(between), w.due, WatchAll(Some(w), between).value.due);
  }

  lemma {:induction false} WatchSnoc(w: Option<Observer>, log: seq<Output>, n: nat)
    requires n < |log|
    ensures WatchAll(w, log[..n + 1]) == Watch(WatchAll(w, log[..n]), log[n])
  {
    assert log[..n + 1][..n] == log[..n];
  }

  lemma {:induction false} WatchPrefix(w: Option<Observer>, log: seq<Output>, n: nat)
    requires WatchAll(w, log).Some? && n <= |log|
    ensures WatchAll(w, log[..n]).Some?
    decreases |log|
  {
    if n == |log| {
      assert log[..n] == log;
    } else {
      assert log[..|log| - 1][..n] == log[..n];
      WatchPrefix(w, log[..|log| - 1], n);
    }
  }
}
