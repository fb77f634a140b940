/**
 * What the passing of time leads to, over whole runs (session/state.rs:300-347, 401-414): Heartbeats owed,
 * a peer that has gone silent, and a Logout nobody answers.
 */
module Timekeeping {
  import opened FixMessage
  import opened Logs
  import opened Replaying
  import opened Session
  import opened SessionRuns
  import opened Deliveries
  import opened Probes

  /**
   * When the next Heartbeat is owed and when the peer is next late; how many intervals in a row it has been;
   * whether a Heartbeat was asked for that has not gone out; and until when an answer to a Logout is
   * waited for.
   */
  datatype Clocks = Clocks(beatDue: nat, hearDue: nat, silent: nat, asked: bool, deadline: Option<nat>)

  function LogoutIn(o: Output): seq<string> {
    if o.Raise? && o.event.AdminSendRequired? && o.event.msg.msgType.Logout? then [o.event.msg.text] else []
  }

  /** A Heartbeat goes out that was not held back before it may. */
  function BeatIn(o: Output): seq<Message> {
    if o.Transmit? && o.role == New && o.msg.msgType.Heartbeat? then [o.msg] else []
  }

  function TimeOf(input: Input): nat {
    match input
    case Receive(_, now) => now
    case Apply(_, now) => now
    case Tick(now) => now
    case PeerLogon(_, now) => now
    case AskLogon => 0
    case PeerClosed => 0
  }

  /** Application messages put off the Heartbeat, and so does a replay. */
  predicate PutsOff(cmd: Command, r: Step) {
    match cmd
    case Send(msg) => r.outcome != Fail && msg.msgType.Application?
    case Replay(_) => true
    case ReplayComplete => true
    case Disconnect => false
  }

  /** What an input does to the clocks by itself. */
  function Wound(interval: nat, c: Clocks, input: Input, r: Step): Clocks {
    match input
    case Receive(_, now) => c.(hearDue := now + interval, silent := 0)
    case Apply(cmd, now) => if PutsOff(cmd, r) then c.(beatDue := now + interval) else c
    case Tick(now) =>
      if c.deadline.Some? then c
      else
        var beat := if now >= c.beatDue then c.(beatDue := now + interval, asked := true) else c;
        if now >= c.hearDue then beat.(hearDue := now + interval, silent := c.silent + 1) else beat
    case _ => c
  }

  /** The clocks after a call, from the input and from what came of it. */
  function Ticked(interval: nat, c: Clocks, input: Input, r: Step): Clocks {
    var w := Wound(interval, c, input, r);
    w.(asked := w.asked && Picked(r.out, BeatIn) == [],
       deadline := if Picked(r.out, LogoutIn) != [] then Some(TimeOf(input) + interval) else w.deadline)
  }

  function ClocksOf(interval: nat, nextIn: nat, now: nat, inputs: seq<Input>): Clocks {
    if inputs == [] then Clocks(now + interval, now + interval, 0, false, None)
    else
      var before, last := inputs[..|inputs| - 1], inputs[|inputs| - 1];
      Ticked(interval, ClocksOf(interval, nextIn, now, before), last, StepOf(After(Initial(interval, nextIn, now), before), last))
  }

  /** The session's own fields say the same. */
  predicate Keeps(s: SessionView, interval: nat, c: Clocks) {
    && s.interval == interval
    && s.timers == Timers(c.beatDue, c.hearDue, c.silent)
    && s.heartbeatRequested == c.asked
    && s.closing == c.deadline
  }

  /** What time passing leads to, by the clocks. */
  function Due(interval: nat, c: Clocks, now: nat, probes: nat): seq<Message> {
    if c.deadline.Some? then []
    else
      (if now >= c.beatDue && !c.asked then [Blank(Heartbeat)] else [])
      + if now < c.hearDue || c.silent == 0 then []
        else if c.silent == 1 then [TestRequestMessage(Hb(probes + 1))]
        else [LogoutMessage(HEARTBEAT_TIMEOUT)]
  }

  function Requests(msgs: seq<Message>): seq<Output> {
    if msgs == [] then [] else [Raise(AdminSendRequired(msgs[0]))] + Requests(msgs[1..])
  }

  // ---------------------------------------------------------------------
  // One call
  // ---------------------------------------------------------------------

  lemma {:induction false} RequestsOfTwo(a: seq<Message>, b: seq<Message>)
    requires |a| <= 1 && |b| <= 1
    ensures Requests(a + b) == (if a == [] then [] else Requested(a[0])) + if b == [] then [] else Requested(b[0])
  {
    assert Requests(b) == if b == [] then [] else [Raise(AdminSendRequired(b[0]))] by {
      if b != [] {
        assert b[1..] == [];
      }
    }
    if a == [] {
      assert a + b == b;
    } else {
      assert (a + b)[1..] == b;
    }
  }

  /** A tick does what is due, and the session is over once the deadline has passed. */
  lemma {:induction false} TickDue(s: SessionView, interval: nat, c: Clocks, now: nat)
    requires Keeps(s, interval, c)
    ensures var r := OnTimeout(s, now);
            && r.out == Requests(Due(interval, c, now, s.testRequestSeq))
            && r.outcome == if c.deadline.Some? && now >= c.deadline.value then Close else Continue
  {
    hide Requests;
    if c.deadline.Some? {
      RequestsOfTwo([], []);
      assert Due(interval, c, now, s.testRequestSeq) == [] + [];
    } else {
      var beat := if now >= c.beatDue && !c.asked then [Blank(Heartbeat)] else [];
      var miss := if now < c.hearDue || c.silent == 0 then []
                  else if c.silent == 1 then [TestRequestMessage(Hb(s.testRequestSeq + 1))]
                  else [LogoutMessage(HEARTBEAT_TIMEOUT)];
      assert HeartbeatDue(s, now).out == if beat == [] then [] else Requested(beat[0]);
      assert HeartbeatMissed(HeartbeatDue(s, now).s, now).out == if miss == [] then [] else Requested(miss[0]);
      hide HeartbeatDue, HeartbeatMissed, Requested;
      RequestsOfTwo(beat, miss);
    }
  }

  // ---------------------------------------------------------------------
  // When a Logout is asked for
  // ---------------------------------------------------------------------

  /** The session starts closing when it asks for a Logout, and then asks for no other. */
  predicate Closes(s: SessionView, now: nat, r: Step, texts: seq<string>) {
    && Picked(r.out, LogoutIn) == texts
    && (texts != [] ==> s.closing.None?)
    && r.s.closing == if texts != [] then Some(now + s.interval) else s.closing
  }

  lemma {:induction false} ClosesThen(s: SessionView, now: nat, a: Step, b: Step, t: seq<string>, u: seq<string>, outcome: Outcome)
    requires Closes(s, now, a, t) && Closes(a.s, now, b, u) && a.s.interval == s.interval
    ensures Closes(s, now, Step(b.s, a.out + b.out, outcome), t + u)
  {
    PickedAppend(a.out, b.out, LogoutIn);
  }

  lemma {:induction false} QuietCloses(s: SessionView, now: nat, r: Step)
    requires r.s.closing == s.closing && forall i :: 0 <= i < |r.out| ==> LogoutIn(r.out[i]) == []
    ensures Closes(s, now, r, [])
  {
    NonePicked(r.out, LogoutIn);
  }

  lemma {:induction false} LogoutCloses(s: SessionView, text: string, now: nat)
    ensures Closes(s, now, RequestLogout(s, text, now), if s.closing.None? then [text] else [])
  {
    hide Picked;
    PickedOne(RequestLogout(s, text, now).out, LogoutIn);
  }

  lemma {:induction false} PromptCloses(s: SessionView, msg: Message, now: nat)
    ensures Closes(s, now, Prompted(s, msg, now), if msg.msgType.Logout? && s.closing.None? then [LOGOUT_RECEIVED] else [])
  {
    hide Closes, RequestLogout;
    if msg.msgType.Logout? {
      LogoutCloses(s, LOGOUT_RECEIVED, now);
    } else {
      QuietCloses(s, now, Prompted(s, msg, now));
    }
  }

  lemma {:induction false} DispatchCloses(s: SessionView, msg: Message, inSequence: bool, now: nat)
    requires msg.seqNum.Some?
    ensures Closes(s, now, DispatchMessage(s, msg, inSequence, now),
                   if msg.msgType.Logout? && s.closing.None? then [LOGOUT_RECEIVED] else [])
  {
    hide Closes, Prompted;
    if Delivered(msg) {
      QuietCloses(s, now, DispatchMessage(s, msg, inSequence, now));
    } else {
      var p := Prompted(s, msg, now);
      var advanced := Step(p.s, [Raise(InboundAdvanced(s.nextIn))], Continue);
      PromptCloses(s, msg, now);
      QuietCloses(p.s, now, advanced);
      var texts := if msg.msgType.Logout? && s.closing.None? then [LOGOUT_RECEIVED] else [];
      ClosesThen(s, now, p, advanced, texts, [], Continue);
      assert texts + [] == texts;
    }
  }

  /** A gap that this message closes, or none to close. */
  predicate GapCloses(s: SessionView, msg: Message) {
    && StandsForNumbers(msg)
    && (s.rerequest.Some? ==> (if msg.msgType.SequenceReset? then msg.newSeqNo.value else msg.seqNum.value + 1) >= s.rerequest.value)
  }

  /** A number, and for a gap fill numbers up to a later one. */
  predicate StandsForNumbers(msg: Message) {
    && msg.seqNum.Some?
    && (msg.msgType.SequenceReset? ==> msg.gapFillFlag == Some(true) && msg.newSeqNo.Some? && msg.newSeqNo.value > msg.seqNum.value)
  }

  /** Why a message heard makes the session ask for a Logout, unless it is ending already. */
  function Reasons(s: SessionView, msg: Message, failed: bool): seq<string> {
    if s.closing.Some? || failed || msg.seqNum.None? then []
    else if msg.seqNum.value < s.nextIn then [TOO_LOW]
    else if msg.seqNum.value > s.nextIn then []
    else if msg.msgType.Logout? || (s.peerLogoutPending && GapCloses(s, msg)) then [LOGOUT_RECEIVED]
    else []
  }

  lemma {:induction false} InSequenceCloses(s: SessionView, msg: Message, now: nat)
    requires msg.seqNum == Some(s.nextIn) && (msg.msgType.SequenceReset? ==> msg.newSeqNo.Some? && msg.gapFillFlag == Some(true))
    ensures var r := HandleInSequence(s, msg, now);
            Closes(s, now, r, Reasons(s, msg, r.outcome == Fail))
  {
    hide DispatchMessage, RequestLogout, Closes;
    var r := HandleInSequence(s, msg, now);
    if NumberAfter(msg) <= msg.seqNum.value {
      QuietCloses(s, now, r);
    } else {
      var s1 := Advanced(s, msg);
      var d := DispatchMessage(s1, msg, true, now);
      DispatchCloses(s1, msg, true, now);
      var texts := if msg.msgType.Logout? && s.closing.None? then [LOGOUT_RECEIVED] else [];
      SameCloses(s, s1, now, d, texts);
      if d.outcome != Continue {
        FailsUnclosed(s1, msg, now);
      } else if d.s.peerLogoutPending && d.s.rerequest.None? {
        var logout := RequestLogout(d.s, LOGOUT_RECEIVED, now);
        LogoutCloses(d.s, LOGOUT_RECEIVED, now);
        ClosedBy(s, now, d, texts);
        ClosesThen(s, now, d, logout, texts, if d.s.closing.None? then [LOGOUT_RECEIVED] else [], Continue);
        assert [] + [LOGOUT_RECEIVED] == [LOGOUT_RECEIVED] == [LOGOUT_RECEIVED] + [];
      }
    }
  }

  lemma {:induction false} SameCloses(s: SessionView, s1: SessionView, now: nat, r: Step, texts: seq<string>)
    requires Closes(s1, now, r, texts) && s1.closing == s.closing && s1.interval == s.interval
    ensures Closes(s, now, r, texts)
  {
  }

  lemma {:induction false} ClosedBy(s: SessionView, now: nat, r: Step, texts: seq<string>)
    requires Closes(s, now, r, texts)
    ensures r.s.closing.None? <==> s.closing.None? && texts == []
  {
  }

  /** A message that fails is no Logout. */
  lemma {:induction false} FailsUnclosed(s: SessionView, msg: Message, now: nat)
    requires msg.seqNum.Some?
    ensures var d := DispatchMessage(s, msg, true, now);
            d.outcome == Continue || (d.outcome == Fail && !msg.msgType.Logout?)
  {
  }

  lemma {:induction false} GapClosesNothing(s: SessionView, msg: Message, now: nat)
    requires msg.seqNum.Some?
    ensures Closes(s, now, HandleGap(s, msg, now), [])
  {
    hide Closes;
    QuietCloses(s, now, HandleGap(s, msg, now));
  }

  lemma {:induction false} HandleCloses(s: SessionView, msg: Message, now: nat)
    ensures var r := HandleSessionMessage(s, msg, now);
            Closes(s, now, r, Reasons(s, msg, r.outcome == Fail))
  {
    hide HandleInSequence, HandleGap, RequestLogout, Closes;
    if Unplaceable(msg) {
      QuietCloses(s, now, HandleSessionMessage(s, msg, now));
    } else if msg.seqNum.value == s.nextIn {
      InSequenceCloses(s, msg, now);
    } else if msg.seqNum.value > s.nextIn {
      GapClosesNothing(s, msg, now);
    } else {
      LogoutCloses(s, TOO_LOW, now);
    }
  }

  /** Why an input makes the session ask for a Logout. */
  function LogoutsBy(s: SessionView, input: Input, r: Step): seq<string> {
    match input
    case Receive(msg, _) => Reasons(s, msg, r.outcome == Fail)
    case PeerLogon(logon, _) => Reasons(s, logon, r.outcome == Fail)
    case Apply(Disconnect, _) => if s.closing.None? then [DISCONNECT_REQUESTED] else []
    case Tick(now) => if s.closing.None? && now >= s.timers.nextIn && s.timers.missed >= 2 then [HEARTBEAT_TIMEOUT] else []
    case _ => []
  }

  lemma {:induction false} TickCloses(s: SessionView, now: nat)
    ensures Closes(s, now, OnTimeout(s, now),
                   if s.closing.None? && now >= s.timers.nextIn && s.timers.missed >= 2 then [HEARTBEAT_TIMEOUT] else [])
  {
    hide Closes, RequestLogout;
    if s.closing.Some? {
      QuietCloses(s, now, OnTimeout(s, now));
    } else {
      var beat := HeartbeatDue(s, now);
      var miss := HeartbeatMissed(beat.s, now);
      QuietCloses(s, now, beat);
      var texts := if now >= s.timers.nextIn && s.timers.missed >= 2 then [HEARTBEAT_TIMEOUT] else [];
      MissCloses(beat.s, now);
      hide HeartbeatMissed;
      ClosesThen(s, now, beat, miss, [], texts, Continue);
      assert [] + texts == texts;
    }
  }

  lemma {:induction false} MissCloses(s: SessionView, now: nat)
    requires s.closing.None?
    ensures Closes(s, now, HeartbeatMissed(s, now),
                   if now >= s.timers.nextIn && s.timers.missed >= 2 then [HEARTBEAT_TIMEOUT] else [])
  {
    hide Closes, RequestLogout;
    var r := HeartbeatMissed(s, now);
    if now >= s.timers.nextIn && s.timers.missed >= 2 {
      var s1 := s.(timers := s.timers.(nextIn := now + s.interval, missed := s.timers.missed + 1));
      LogoutCloses(s1, HEARTBEAT_TIMEOUT, now);
      SameCloses(s, s1, now, r, [HEARTBEAT_TIMEOUT]);
    } else {
      QuietCloses(s, now, r);
    }
  }

  /** No Logout is asked for. */
  predicate NoLogouts(log: seq<Output>) {
    forall i :: 0 <= i < |log| ==> LogoutIn(log[i]) == []
  }

  lemma {:induction false} NoLogoutsThen(a: seq<Output>, b: seq<Output>)
    requires NoLogouts(a) && NoLogouts(b)
    ensures NoLogouts(a + b)
  {
    hide LogoutIn;
  }

  lemma {:induction false} QueueNoLogouts(s: SessionView, queue: seq<Message>)
    requires forall i :: 0 <= i < |queue| ==> queue[i].seqNum.Some?
    ensures NoLogouts(DispatchQueue(s, queue).out)
    decreases |queue|
  {
    if queue != [] {
      var first := DispatchOutbound(s, queue[0]);
      assert NoLogouts(first.out);
      hide NoLogouts, DispatchOutbound;
      QueueNoLogouts(first.s, queue[1..]);
      NoLogoutsThen(first.out, DispatchQueue(first.s, queue[1..]).out);
    } else {
      assert NoLogouts([]);
    }
  }

  lemma {:induction false} CompleteNoLogouts(s: SessionView)
    requires s.WellFormed()
    ensures NoLogouts(CompleteReplay(s).out) && CompleteReplay(s).s.closing == s.closing
  {
    if s.replay.Some? {
      var fill := FillTrailing(s);
      var queue := DispatchQueue(fill.s.(replay := None), s.replay.value.queue);
      var sync := RequestSyncTestRequest(queue.s);
      assert NoLogouts(fill.out) && NoLogouts(sync.out);
      FillKeeps(s);
      hide DispatchQueue, NoLogouts, FillTrailing;
      QueueNoLogouts(fill.s.(replay := None), s.replay.value.queue);
      NoLogoutsThen(fill.out, queue.out);
      NoLogoutsThen(fill.out + queue.out, sync.out);
    } else {
      assert NoLogouts([]);
    }
  }

  lemma {:induction false} SendNoLogouts(s: SessionView, msg: Message, now: nat)
    ensures NoLogouts(SendMessage(s, msg, now).out) && SendMessage(s, msg, now).s.closing == s.closing
  {
  }

  lemma {:induction false} ReplayNoLogouts(s: SessionView, msg: Message)
    requires s.WellFormed()
    ensures NoLogouts(ReplayMessage(s, msg).out)
  {
  }

  lemma {:induction false} CommandCloses(s: SessionView, cmd: Command, now: nat)
    requires s.WellFormed()
    ensures Closes(s, now, OnCommand(s, cmd, now), if cmd.Disconnect? && s.closing.None? then [DISCONNECT_REQUESTED] else [])
  {
    hide SendMessage, ReplayMessage, CompleteReplay, RequestLogout, Closes, LogoutIn;
    var s1 := s.(timers := s.timers.(nextOut := now + s.interval));
    match cmd
    case Send(msg) =>
      SendNoLogouts(s, msg, now);
      QuietCloses(s, now, SendMessage(s, msg, now));
    case Replay(msg) =>
      ReplayNoLogouts(s1, msg);
      QuietCloses(s, now, ReplayMessage(s1, msg));
    case ReplayComplete =>
      CompleteNoLogouts(s1);
      QuietCloses(s, now, CompleteReplay(s1));
    case Disconnect => LogoutCloses(s, DISCONNECT_REQUESTED, now);
  }

  /** A call asks for a Logout exactly for one of these reasons, and starts closing when it does. */
  lemma {:induction false} LogoutAskedWhen(s: SessionView, input: Input)
    requires s.WellFormed()
    ensures Closes(s, TimeOf(input), StepOf(s, input), LogoutsBy(s, input, StepOf(s, input)))
  {
    hide Closes, OnCommand, OnTimeout, HandleSessionMessage, StartTail, Reasons;
    match input
    case Apply(cmd, now) => CommandCloses(s, cmd, now);
    case Tick(now) => TickCloses(s, now);
    case Receive(msg, now) => ReceiveCloses(s, msg, now);
    case PeerLogon(logon, now) => StartCloses(s, logon, now);
    case AskLogon => QuietCloses(s, 0, RequestLogon(s));
    case PeerClosed => QuietCloses(s, 0, Step(s, [Raise(Disconnected)], Close));
  }

  lemma {:induction false} ReceiveCloses(s: SessionView, msg: Message, now: nat)
    ensures var r := OnMessage(s, msg, now);
            Closes(s, now, r, Reasons(s, msg, r.outcome == Fail))
  {
    hide Closes, HandleSessionMessage, Reasons;
    var s1 := s.(timers := s.timers.(nextIn := now + s.interval, missed := 0));
    var received := Step(s1, [Raise(RawMessageReceived(msg))], Continue);
    QuietCloses(s, now, received);
    var h := HandleSessionMessage(s1, msg, now);
    var r := OnMessage(s, msg, now);
    if s.closing.None? {
      HandleCloses(s1, msg, now);
      ClosesThen(s, now, received, h, [], Reasons(s1, msg, h.outcome == Fail), h.outcome);
      TimedReasons(s, s1, msg, h.outcome == Fail);
      assert [] + Reasons(s, msg, r.outcome == Fail) == Reasons(s, msg, r.outcome == Fail);
    } else {
      NoReasons(s, msg, r.outcome == Fail);
    }
  }

  lemma {:induction false} TimedReasons(s: SessionView, s1: SessionView, msg: Message, failed: bool)
    requires s1 == s.(timers := s1.timers)
    ensures Reasons(s1, msg, failed) == Reasons(s, msg, failed)
  {
  }

  lemma {:induction false} NoReasons(s: SessionView, msg: Message, failed: bool)
    requires s.closing.Some?
    ensures Reasons(s, msg, failed) == []
  {
  }

  lemma {:induction false} StartCloses(s: SessionView, logon: Message, now: nat)
    ensures var r := Start(s, logon, now);
            Closes(s, now, r, Reasons(s, logon, r.outcome == Fail))
  {
    hide Closes, HandleSessionMessage, Reasons;
    var h := HandleSessionMessage(s, logon, now);
    HandleCloses(s, logon, now);
    HandleFrame(s, logon, now);
    if h.outcome == Continue {
      var tail := StartTail(h.s);
      QuietCloses(h.s, now, tail);
      ClosesThen(s, now, h, tail, Reasons(s, logon, false), [], Continue);
      assert Reasons(s, logon, false) + [] == Reasons(s, logon, false);
    }
  }

  // ---------------------------------------------------------------------
  // Heartbeats sent
  // ---------------------------------------------------------------------

  /** A Heartbeat that goes out is the one that was asked for. */
  predicate Beats(s: SessionView, r: Step) {
    r.s.heartbeatRequested == (s.heartbeatRequested && Picked(r.out, BeatIn) == [])
  }

  lemma {:induction false} BeatsThen(s: SessionView, a: Step, b: Step, outcome: Outcome)
    requires Beats(s, a) && Beats(a.s, b)
    ensures Beats(s, Step(b.s, a.out + b.out, outcome))
  {
    PickedAppend(a.out, b.out, BeatIn);
  }

  lemma {:induction false} QuietBeats(s: SessionView, r: Step)
    requires r.s.heartbeatRequested == s.heartbeatRequested && forall i :: 0 <= i < |r.out| ==> BeatIn(r.out[i]) == []
    ensures Beats(s, r)
  {
    NonePicked(r.out, BeatIn);
  }

  lemma {:induction false} DispatchBeats(s: SessionView, msg: Message)
    requires msg.seqNum.Some?
    ensures Beats(s, DispatchOutbound(s, msg))
  {
    hide Picked;
    var r := DispatchOutbound(s, msg);
    var first, rest := [r.out[0]], r.out[1..];
    assert r.out == first + rest;
    PickedOne(first, BeatIn);
    NonePicked(rest, BeatIn);
    PickedAppend(first, rest, BeatIn);
  }

  lemma {:induction false} QueueBeats(s: SessionView, queue: seq<Message>)
    requires forall i :: 0 <= i < |queue| ==> queue[i].seqNum.Some?
    ensures Beats(s, DispatchQueue(s, queue))
    decreases |queue|
  {
    hide Beats, DispatchOutbound;
    if queue == [] {
      QuietBeats(s, DispatchQueue(s, queue));
    } else {
      var first := DispatchOutbound(s, queue[0]);
      DispatchBeats(s, queue[0]);
      QueueBeats(first.s, queue[1..]);
      var rest := DispatchQueue(first.s, queue[1..]);
      BeatsThen(s, first, rest, rest.outcome);
    }
  }

  lemma {:induction false} CompleteBeats(s: SessionView)
    requires s.WellFormed()
    ensures Beats(s, CompleteReplay(s)) && CompleteReplay(s).s.timers == s.timers && CompleteReplay(s).s.interval == s.interval
  {
    hide Beats;
    if s.replay.Some? {
      var fill := FillTrailing(s);
      FillKeeps(s);
      var open := fill.(s := fill.s.(replay := None));
      QuietBeats(s, open);
      var queue := DispatchQueue(open.s, s.replay.value.queue);
      var sync := RequestSyncTestRequest(queue.s);
      QuietBeats(queue.s, sync);
      hide FillTrailing, DispatchQueue;
      QueueBeats(open.s, s.replay.value.queue);
      BeatsThen(s, open, queue, queue.outcome);
      BeatsThen(s, open, queue, Continue);
      BeatsThen(s, Step(queue.s, fill.out + queue.out, Continue), sync, Continue);
    } else {
      QuietBeats(s, CompleteReplay(s));
    }
  }

  lemma {:induction false} SendBeats(s: SessionView, msg: Message, now: nat)
    ensures var r := SendMessage(s, msg, now);
            && Beats(s, r) && r.s.interval == s.interval
            && r.s.timers == if r.outcome != Fail && msg.msgType.Application? then s.timers.(nextOut := now + s.interval) else s.timers
  {
    hide Beats, DispatchOutbound;
    var r := SendMessage(s, msg, now);
    if Refused(s, msg) || s.replay.Some? {
      QuietBeats(s, r);
    } else {
      var timers := if msg.IsAdmin() then s.timers else s.timers.(nextOut := now + s.interval);
      var s1 := s.(highestAccepted := msg.seqNum.value, timers := timers);
      DispatchBeats(s1, msg);
      SameBeats(s, s1, r);
    }
  }

  lemma {:induction false} SameBeats(s: SessionView, s1: SessionView, r: Step)
    requires Beats(s1, r) && s1.heartbeatRequested == s.heartbeatRequested
    ensures Beats(s, r)
  {
  }

  lemma {:induction false} ReplayBeats(s: SessionView, msg: Message)
    requires s.WellFormed()
    ensures Beats(s, ReplayMessage(s, msg))
  {
    hide Beats;
    QuietBeats(s, ReplayMessage(s, msg));
  }

  lemma {:induction false} CommandBeats(s: SessionView, cmd: Command, now: nat)
    requires s.WellFormed()
    ensures var r := OnCommand(s, cmd, now);
            && Beats(s, r) && r.s.interval == s.interval
            && r.s.timers == if PutsOff(cmd, r) then s.timers.(nextOut := now + s.interval) else s.timers
  {
    hide SendMessage, ReplayMessage, CompleteReplay, Beats;
    var s1 := s.(timers := s.timers.(nextOut := now + s.interval));
    match cmd
    case Send(msg) => SendBeats(s, msg, now);
    case Replay(msg) =>
      ReplayBeats(s1, msg);
      SameBeats(s, s1, ReplayMessage(s1, msg));
    case ReplayComplete =>
      CompleteBeats(s1);
      SameBeats(s, s1, CompleteReplay(s1));
    case Disconnect => QuietBeats(s, RequestLogout(s, DISCONNECT_REQUESTED, now));
  }

  // ---------------------------------------------------------------------
  // Whole runs
  // ---------------------------------------------------------------------

  /** The clocks as the input winds them are the session's, but for what goes out and for a Logout asked for. */
  predicate WoundAlike(s: SessionView, interval: nat, c: Clocks, input: Input, r: Step) {
    var w := Wound(interval, c, input, r);
    && r.s.interval == interval
    && r.s.timers == Timers(w.beatDue, w.hearDue, w.silent)
    && r.s.heartbeatRequested == (w.asked && Picked(r.out, BeatIn) == [])
    && w.deadline == c.deadline
  }

  lemma {:induction false} WoundThenClosed(s: SessionView, interval: nat, c: Clocks, input: Input, r: Step, texts: seq<string>)
    requires Keeps(s, interval, c) && WoundAlike(s, interval, c, input, r) && Closes(s, TimeOf(input), r, texts)
    ensures Keeps(r.s, interval, Ticked(interval, c, input, r))
  {
    hide Picked, Wound, BeatIn, LogoutIn;
  }

  lemma {:induction false} StepWound(s: SessionView, interval: nat, c: Clocks, input: Input)
    requires s.WellFormed() && Keeps(s, interval, c)
    ensures WoundAlike(s, interval, c, input, StepOf(s, input))
  {
    hide OnMessage, OnCommand, OnTimeout, Start, Picked, BeatIn, PutsOff;
    match input
    case Apply(cmd, now) => CommandBeats(s, cmd, now);
    case Tick(now) => TickKeeps(s, interval, c, now);
    case Receive(msg, now) => ReceiveBeats(s, msg, now);
    case PeerLogon(logon, now) => StartBeats(s, logon, now);
    case AskLogon => NoneBeat(s, RequestLogon(s));
    case PeerClosed => NoneBeat(s, Step(s, [Raise(Disconnected)], Close));
  }

  lemma {:induction false} StepKeeps(s: SessionView, interval: nat, c: Clocks, input: Input)
    requires s.WellFormed() && Keeps(s, interval, c)
    ensures Keeps(StepOf(s, input).s, interval, Ticked(interval, c, input, StepOf(s, input)))
  {
    hide StepOf, LogoutsBy, Closes, WoundAlike, Ticked, Keeps;
    LogoutAskedWhen(s, input);
    StepWound(s, interval, c, input);
    WoundThenClosed(s, interval, c, input, StepOf(s, input), LogoutsBy(s, input, StepOf(s, input)));
  }

  lemma {:induction false} NoneBeat(s: SessionView, r: Step)
    requires forall i :: 0 <= i < |r.out| ==> r.out[i].Raise?
    ensures Picked(r.out, BeatIn) == []
  {
    NonePicked(r.out, BeatIn);
  }

  lemma {:induction false} TickKeeps(s: SessionView, interval: nat, c: Clocks, now: nat)
    requires Keeps(s, interval, c)
    ensures var r := OnTimeout(s, now);
            var w := Wound(interval, c, Tick(now), r);
            && Picked(r.out, BeatIn) == []
            && r.s.interval == interval && r.s.timers == Timers(w.beatDue, w.hearDue, w.silent) && r.s.heartbeatRequested == w.asked
  {
    TickTimes(s, interval, c, now);
    hide OnTimeout, Picked, Wound;
    NoneBeat(s, OnTimeout(s, now));
  }

  lemma {:induction false} TickTimes(s: SessionView, interval: nat, c: Clocks, now: nat)
    requires Keeps(s, interval, c)
    ensures var r := OnTimeout(s, now);
            var w := Wound(interval, c, Tick(now), r);
            && (forall i :: 0 <= i < |r.out| ==> r.out[i].Raise?)
            && r.s.timers == Timers(w.beatDue, w.hearDue, w.silent) && r.s.heartbeatRequested == w.asked
  {
  }

  lemma {:induction false} ReceiveBeats(s: SessionView, msg: Message, now: nat)
    ensures var r := OnMessage(s, msg, now);
            && Picked(r.out, BeatIn) == [] && r.s.interval == s.interval && r.s.heartbeatRequested == s.heartbeatRequested
            && r.s.timers == s.timers.(nextIn := now + s.interval, missed := 0)
  {
    hide HandleSessionMessage, Picked;
    HandleFrame(s.(timers := s.timers.(nextIn := now + s.interval, missed := 0)), msg, now);
    NoneBeat(s, OnMessage(s, msg, now));
  }

  lemma {:induction false} StartBeats(s: SessionView, logon: Message, now: nat)
    ensures var r := Start(s, logon, now);
            && Picked(r.out, BeatIn) == [] && r.s.interval == s.interval && r.s.heartbeatRequested == s.heartbeatRequested
            && r.s.timers == s.timers
  {
    hide HandleSessionMessage, Picked;
    HandleFrame(s, logon, now);
    NoneBeat(s, Start(s, logon, now));
  }

  lemma {:induction false} ClocksKnown(interval: nat, nextIn: nat, now: nat, inputs: seq<Input>)
    ensures Keeps(After(Initial(interval, nextIn, now), inputs), interval, ClocksOf(interval, nextIn, now, inputs))
  {
    if inputs != [] {
      hide StepOf, Ticked;
      var s, before, last := Initial(interval, nextIn, now), inputs[..|inputs| - 1], inputs[|inputs| - 1];
      ClocksKnown(interval, nextIn, now, before);
      StepKeeps(After(s, before), interval, ClocksOf(interval, nextIn, now, before), last);
    }
  }

  /**
   * Whatever a session started afresh has been through, time passing leads to exactly what is due: a
   * Heartbeat when nothing of the application's has gone out for an interval and none is on its way; a Test
   * Request when the peer has been silent for a second interval in a row and a Logout after the third; and
   * the end of the session an interval after a Logout was asked for.
   */
  lemma {:induction false} TimePasses(interval: nat, nextIn: nat, now: nat, inputs: seq<Input>, t: nat)
    ensures var s, c := Initial(interval, nextIn, now), ClocksOf(interval, nextIn, now, inputs);
            var r := StepOf(After(s, inputs), Tick(t));
            && r.out == Requests(Due(interval, c, t, |Picked(Log(s, inputs), NumberIn)|))
            && r.outcome == if c.deadline.Some? && t >= c.deadline.value then Close else Continue
  {
    hide After, ClocksOf, Log, OnTimeout, Due, Requests, Picked, Counting;
    var s := Initial(interval, nextIn, now);
    ClocksKnown(interval, nextIn, now, inputs);
    ProbesAreNumbered(interval, nextIn, now, inputs);
    TickDue(After(s, inputs), interval, ClocksOf(interval, nextIn, now, inputs), t);
  }
}
