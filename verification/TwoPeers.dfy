/**
 * Two sessions joined by a wire: one has missed messages, asks for them, and recovers
 * (session/state.rs:585-784, session/replay.rs:96-139).
 */
module TwoPeers {
  import opened FixMessage
  import opened Replaying
  import opened Session
  import opened SessionRuns
  import opened Outbound
  import opened Inbound

  // ---------------------------------------------------------------------
  // The receiver, as far as sequence numbers go
  // ---------------------------------------------------------------------

  /** Where a receiver is: the number it expects, and the one that closes the gap it is in. */
  datatype Cursor = Cursor(nextIn: nat, gap: Option<nat>)

  function CursorOf(s: SessionView): Cursor {
    Cursor(s.nextIn, s.rerequest)
  }

  /** A message that can be placed in the sequence. */
  predicate Numbered(msg: Message) {
    msg.seqNum.Some? && (msg.msgType.SequenceReset? ==> msg.newSeqNo.Some? && msg.newSeqNo.value > msg.seqNum.value)
  }

  predicate TooLow(c: Cursor, msg: Message) {
    Numbered(msg) && msg.seqNum.value < c.nextIn
  }

  function Take(c: Cursor, msg: Message): Cursor {
    if !Numbered(msg) || TooLow(c, msg) then c
    else if msg.seqNum.value > c.nextIn then c.(gap := if c.gap.None? then msg.seqNum else c.gap)
    else
      var next := NumberAfter(msg);
      Cursor(next, if c.gap.Some? && next >= c.gap.value then None else c.gap)
  }

  /** Where the ResendRequest this message provokes begins, if it provokes one. */
  function AsksFor(c: Cursor, msg: Message): seq<nat> {
    if Numbered(msg) && msg.seqNum.value > c.nextIn && c.gap.None? then [c.nextIn] else []
  }

  function TakeAll(c: Cursor, msgs: seq<Message>): Cursor {
    if msgs == [] then c else Take(TakeAll(c, msgs[..|msgs| - 1]), msgs[|msgs| - 1])
  }

  function Asks(c: Cursor, msgs: seq<Message>): seq<nat> {
    if msgs == [] then []
    else
      var before := msgs[..|msgs| - 1];
      Asks(c, before) + AsksFor(TakeAll(c, before), msgs[|msgs| - 1])
  }

  /** No message of the stream is numbered below what is expected when it arrives. */
  predicate NeverLow(c: Cursor, msgs: seq<Message>) {
    msgs != [] ==>
      var before := msgs[..|msgs| - 1];
      NeverLow(c, before) && !TooLow(TakeAll(c, before), msgs[|msgs| - 1])
  }

  lemma {:induction false} StreamAppend(c: Cursor, a: seq<Message>, b: seq<Message>)
    ensures TakeAll(c, a + b) == TakeAll(TakeAll(c, a), b)
    ensures Asks(c, a + b) == Asks(c, a) + Asks(TakeAll(c, a), b)
    ensures NeverLow(c, a + b) <==> NeverLow(c, a) && NeverLow(TakeAll(c, a), b)
  {
    if b == [] {
      assert a + b == a;
    } else {
      assert (a + b)[..|a + b| - 1] == a + b[..|b| - 1];
      StreamAppend(c, a, b[..|b| - 1]);
    }
  }

  // ---------------------------------------------------------------------
  // The three parts of a recovery
  // ---------------------------------------------------------------------

  /** New messages in flight, all beyond the gap, raise one request and are otherwise discarded. */
  lemma {:induction false} InFlightDiscarded(n: nat, msgs: seq<Message>)
    requires msgs != []
    requires forall i :: 0 <= i < |msgs| ==> Numbered(msgs[i]) && n < msgs[i].seqNum.value
    ensures TakeAll(Cursor(n, None), msgs) == Cursor(n, msgs[0].seqNum)
    ensures Asks(Cursor(n, None), msgs) == [n]
    ensures NeverLow(Cursor(n, None), msgs)
  {
    var before := msgs[..|msgs| - 1];
    if before == [] {
      assert TakeAll(Cursor(n, None), before) == Cursor(n, None);
    } else {
      InFlightDiscarded(n, before);
    }
  }

  /** The numbers a message accounts for. */
  function PieceOf(msg: Message): Piece
    requires Numbered(msg)
  {
    if msg.msgType.SequenceReset? then Fill(Range(msg.seqNum.value, msg.newSeqNo.value - 1))
    else Single(msg.seqNum.value)
  }

  function Pieces(msgs: seq<Message>): seq<Piece>
    requires forall i :: 0 <= i < |msgs| ==> Numbered(msgs[i])
  {
    if msgs == [] then [] else Pieces(msgs[..|msgs| - 1]) + [PieceOf(msgs[|msgs| - 1])]
  }

  /** A stream that lies end to end from the expected number is taken in whole, closing the gap on the way. */
  lemma {:induction false} ReplayTaken(c: Cursor, msgs: seq<Message>, end: nat)
    requires c.gap.Some? ==> c.nextIn < c.gap.value
    requires forall i :: 0 <= i < |msgs| ==> Numbered(msgs[i])
    requires Tiles(Pieces(msgs), c.nextIn, end)
    ensures NeverLow(c, msgs) && Asks(c, msgs) == []
    ensures TakeAll(c, msgs) == Cursor(end, if c.gap.Some? && end >= c.gap.value then None else c.gap)
  {
    if msgs != [] {
      var before, last := msgs[..|msgs| - 1], msgs[|msgs| - 1];
      var mid := TilesSplit(Pieces(before), [PieceOf(last)], c.nextIn, end);
      assert [PieceOf(last)][1..] == [];
      ReplayTaken(c, before, mid);
    }
  }

  ghost predicate Contiguous(msgs: seq<Message>, first: nat) {
    forall i :: 0 <= i < |msgs| ==>
      msgs[i].seqNum == Some(first + i) && !msgs[i].msgType.SequenceReset?
  }

  lemma {:induction false} ContiguousTiles(msgs: seq<Message>, first: nat)
    requires Contiguous(msgs, first)
    ensures Tiles(Pieces(msgs), first, first + |msgs|)
  {
    if msgs != [] {
      var n := |msgs| - 1;
      ContiguousTiles(msgs[..n], first);
      assert [PieceOf(msgs[n])][1..] == [];
      TilesAppend(Pieces(msgs[..n]), [PieceOf(msgs[n])], first, first + n, first + |msgs|);
    }
  }

  /** In-flight messages, then a replay of everything missed, then what was sent next. */
  lemma {:induction false} StreamRecovers(n: nat, end: nat, flight: seq<Message>, replay: seq<Message>,
                                          later: seq<Message>)
    requires flight != []
    requires forall i :: 0 <= i < |flight| ==> Numbered(flight[i]) && n < flight[i].seqNum.value <= end
    requires forall i :: 0 <= i < |replay| ==> Numbered(replay[i])
    requires Tiles(Pieces(replay), n, end + 1)
    requires Contiguous(later, end + 1)
    ensures var c, stream := Cursor(n, None), flight + replay + later;
            && NeverLow(c, stream)
            && Asks(c, stream) == [n]
            && TakeAll(c, stream) == Cursor(end + 1 + |later|, None)
  {
    hide TakeAll, Asks, NeverLow, Tiles;
    var c := Cursor(n, None);
    InFlightDiscarded(n, flight);
    StreamAppend(c, flight, replay);
    ReplayTaken(TakeAll(c, flight), replay, end + 1);
    StreamAppend(c, flight + replay, later);
    ContiguousTiles(later, end + 1);
    ReplayTaken(Cursor(end + 1, None), later, end + 1 + |later|);
  }

  // ---------------------------------------------------------------------
  // A receiving session does what its cursor says
  // ---------------------------------------------------------------------

  /** A message as the wire carries it: stamping its `SendingTime` is the output's business. */
  function OnWire(msg: Message): Message {
    msg.(sendingTime := None)
  }

  /** The message an input brings in, if it brings one: the peer's Logon starts the session, others follow. */
  function Brought(input: Input): Option<Message> {
    match input
    case Receive(msg, _) => Some(msg)
    case PeerLogon(logon, _) => Some(logon)
    case _ => None
  }

  /** Everything the inputs bring in, in order. */
  function Received(inputs: seq<Input>): seq<Message> {
    if inputs == [] then []
    else
      var before, last := Received(inputs[..|inputs| - 1]), Brought(inputs[|inputs| - 1]);
      if last.Some? then before + [OnWire(last.value)] else before
  }

  /** The session accepts what it is given, and does not decide to log out for reasons of its own. */
  predicate Attentive(s: SessionView, inputs: seq<Input>)
    requires s.WellFormed()
  {
    inputs != [] ==>
      var before, last := inputs[..|inputs| - 1], inputs[|inputs| - 1];
      && Attentive(s, before)
      && if Brought(last).Some? then StepOf(After(s, before), last).outcome != Fail
         else StepOf(After(s, before), last).s.closing.None?
  }

  /** Not ending, and with no Logout waiting to be answered. */
  predicate Open(s: SessionView) {
    s.closing.None? && !s.peerLogoutPending
  }

  lemma {:induction false} InSequenceTakes(s: SessionView, msg: Message, now: nat)
    requires msg.seqNum == Some(s.nextIn) && Open(s) && !msg.msgType.Logout?
    requires msg.msgType.SequenceReset? ==> msg.newSeqNo.Some?
    requires HandleInSequence(s, msg, now).outcome != Fail
    ensures var r := HandleInSequence(s, msg, now);
            Numbered(msg) && CursorOf(r.s) == Take(CursorOf(s), msg) && Open(r.s) && ResendBegins(r.out) == []
  {
    var s1 := Advanced(s, msg);
    DispatchAsksNothing(s1, msg, true, now);
    OnlyLogoutCloses(s1, msg, true, now);
    hide DispatchMessage;
  }

  lemma {:induction false} OnlyLogoutCloses(s: SessionView, msg: Message, inSequence: bool, now: nat)
    requires msg.seqNum.Some? && !msg.msgType.Logout?
    ensures DispatchMessage(s, msg, inSequence, now).s.closing == s.closing
  {
  }

  lemma {:induction false} GapTakes(s: SessionView, msg: Message, now: nat)
    requires Numbered(msg) && s.nextIn < msg.seqNum.value && Open(s) && !msg.msgType.Logout?
    ensures var r := HandleGap(s, msg, now);
            && CursorOf(r.s) == Take(CursorOf(s), msg) && Open(r.s)
            && ResendBegins(r.out) == AsksFor(CursorOf(s), msg)
  {
    var ask := AskForGap(s, msg);
    assert ResendBegins(ask.out) == AsksFor(CursorOf(s), msg) by {
      if s.rerequest.None? {
        assert ask.out[..0] == [];
        assert ResendBegins([]) == [];
      }
    }
    DispatchAsksNothing(ask.s, msg, false, now);
    OnlyLogoutCloses(ask.s, msg, false, now);
    BeginsAppend(ask.out, DispatchMessage(ask.s, msg, false, now).out);
    hide DispatchMessage;
  }

  lemma {:induction false} HandleTakes(s: SessionView, msg: Message, now: nat)
    requires Open(s) && !msg.msgType.Logout?
    requires !TooLow(CursorOf(s), msg) && Numbered(msg)
    requires HandleSessionMessage(s, msg, now).outcome != Fail
    ensures var r := HandleSessionMessage(s, msg, now);
            && CursorOf(r.s) == Take(CursorOf(s), msg) && Open(r.s)
            && ResendBegins(r.out) == AsksFor(CursorOf(s), msg)
  {
    hide HandleInSequence, HandleGap;
    if msg.seqNum.value == s.nextIn {
      InSequenceTakes(s, msg, now);
    } else {
      GapTakes(s, msg, now);
    }
  }

  lemma {:induction false} ReceiveTakes(s: SessionView, msg: Message, now: nat)
    requires Open(s) && !msg.msgType.Logout?
    requires !TooLow(CursorOf(s), msg) && Numbered(msg)
    requires OnMessage(s, msg, now).outcome != Fail
    ensures var r := OnMessage(s, msg, now);
            && CursorOf(r.s) == Take(CursorOf(s), msg) && Open(r.s)
            && ResendBegins(r.out) == AsksFor(CursorOf(s), msg)
  {
    hide HandleSessionMessage, ResendBegins, Take;
    var s1 := s.(timers := s.timers.(nextIn := now + s.interval, missed := 0));
    var received := [Raise(RawMessageReceived(msg))];
    NoBegins(received);
    HandleTakes(s1, msg, now);
    BeginsAppend(received, HandleSessionMessage(s1, msg, now).out);
  }

  /** The peer's Logon is placed as any message is; what starting adds to that leaves the cursor alone. */
  lemma {:induction false} StartTakes(s: SessionView, logon: Message, now: nat)
    requires Open(s) && !logon.msgType.Logout?
    requires !TooLow(CursorOf(s), logon) && Numbered(logon)
    requires Start(s, logon, now).outcome != Fail
    ensures var r := Start(s, logon, now);
            && CursorOf(r.s) == Take(CursorOf(s), logon) && Open(r.s)
            && ResendBegins(r.out) == AsksFor(CursorOf(s), logon)
  {
    hide HandleSessionMessage, ResendBegins, Take;
    var h := HandleSessionMessage(s, logon, now);
    HandleTakes(s, logon, now);
    NoBegins(StartTail(h.s).out);
    BeginsAppend(h.out, StartTail(h.s).out);
  }

  /** Anything else the session is doing meanwhile leaves its cursor alone. */
  lemma {:induction false} OthersLeaveCursor(s: SessionView, input: Input)
    requires s.WellFormed() && Brought(input).None? && Open(s)
    requires StepOf(s, input).s.closing.None?
    ensures CursorOf(StepOf(s, input).s) == CursorOf(s) && Open(StepOf(s, input).s)
    ensures ResendBegins(StepOf(s, input).out) == []
  {
    hide OnCommand, OnTimeout;
    match input
    case Apply(cmd, now) => CommandLeavesCursor(s, cmd, now);
    case Tick(now) => TickLeavesCursor(s, now);
    case AskLogon => NoBegins(RequestLogon(s).out);
    case PeerClosed => NoBegins([Raise(Disconnected)]);
  }

  lemma {:induction false} TickLeavesCursor(s: SessionView, now: nat)
    requires Open(s)
    ensures CursorOf(OnTimeout(s, now).s) == CursorOf(s)
    ensures !OnTimeout(s, now).s.peerLogoutPending
    ensures ResendBegins(OnTimeout(s, now).out) == []
  {
    hide ResendBegins, HeartbeatDue, HeartbeatMissed;
    var beat := HeartbeatDue(s, now);
    var miss := HeartbeatMissed(beat.s, now);
    BeatAsksNothing(s, now);
    MissAsksNothing(beat.s, now);
    BeginsAppend(beat.out, miss.out);
  }

  lemma {:induction false} BeatAsksNothing(s: SessionView, now: nat)
    ensures ResendBegins(HeartbeatDue(s, now).out) == []
  {
    hide ResendBegins;
    NoBegins(HeartbeatDue(s, now).out);
  }

  lemma {:induction false} MissAsksNothing(s: SessionView, now: nat)
    ensures ResendBegins(HeartbeatMissed(s, now).out) == []
  {
    hide ResendBegins;
    NoBegins(HeartbeatMissed(s, now).out);
  }

  lemma {:induction false} CommandLeavesCursor(s: SessionView, cmd: Command, now: nat)
    requires s.WellFormed() && Open(s)
    ensures CursorOf(OnCommand(s, cmd, now).s) == CursorOf(s)
    ensures !OnCommand(s, cmd, now).s.peerLogoutPending
    ensures ResendBegins(OnCommand(s, cmd, now).out) == []
  {
    hide SendMessage, ReplayMessage, CompleteReplay;
    var s1 := s.(timers := s.timers.(nextOut := now + s.interval));
    match cmd {
      case Send(msg) => SendUnheard(s, msg, now);
      case Replay(msg) => ReplayUnheard(s1, msg);
      case ReplayComplete => CompleteUnheard(s1);
      case Disconnect =>
    }
    NoBegins(OnCommand(s, cmd, now).out);
  }

  ghost predicate Ordinary(msgs: seq<Message>) {
    forall i :: 0 <= i < |msgs| ==> Numbered(msgs[i]) && !msgs[i].msgType.Logout?
  }

  lemma {:induction false} SessionTakes(s: SessionView, inputs: seq<Input>)
    requires s.WellFormed() && Open(s) && Attentive(s, inputs)
    requires Ordinary(Received(inputs)) && NeverLow(CursorOf(s), Received(inputs))
    ensures Open(After(s, inputs))
    ensures CursorOf(After(s, inputs)) == TakeAll(CursorOf(s), Received(inputs))
    ensures ResendBegins(Log(s, inputs)) == Asks(CursorOf(s), Received(inputs))
  {
    if inputs == [] {
      assert ResendBegins([]) == [];
    } else {
      hide StepOf, Take, ResendBegins;
      var before, last := inputs[..|inputs| - 1], inputs[|inputs| - 1];
      var mid := After(s, before);
      if Brought(last).Some? {
        var msgs, msg := Received(before), OnWire(Brought(last).value);
        assert (msgs + [msg])[..|msgs|] == msgs;
        assert (msgs + [msg])[|msgs|] == msg;
        OrdinaryPrefix(msgs, msg);
        SessionTakes(s, before);
        SameOnWire(mid, last);
      } else {
        SessionTakes(s, before);
        OthersLeaveCursor(mid, last);
      }
      BeginsAppend(Log(s, before), StepOf(mid, last).out);
    }
  }

  lemma {:induction false} OrdinaryPrefix(msgs: seq<Message>, msg: Message)
    requires Ordinary(msgs + [msg])
    ensures Ordinary(msgs) && Numbered(msg) && !msg.msgType.Logout?
  {
    assert (msgs + [msg])[|msgs|] == msg;
    assert forall i :: 0 <= i < |msgs| ==> (msgs + [msg])[i] == msgs[i];
  }

  /** The times on a message make no difference to where it is placed. */
  lemma {:induction false} SameOnWire(s: SessionView, input: Input)
    requires s.WellFormed() && Open(s) && Brought(input).Some? && StepOf(s, input).outcome != Fail
    requires var msg := OnWire(Brought(input).value);
             Numbered(msg) && !msg.msgType.Logout? && !TooLow(CursorOf(s), msg)
    ensures var r, msg := StepOf(s, input), OnWire(Brought(input).value);
            && CursorOf(r.s) == Take(CursorOf(s), msg) && Open(r.s)
            && ResendBegins(r.out) == AsksFor(CursorOf(s), msg)
  {
    hide OnMessage, Start, ResendBegins;
    match input
    case Receive(msg, now) => ReceiveTakes(s, msg, now);
    case PeerLogon(logon, now) => StartTakes(s, logon, now);
  }

  // ---------------------------------------------------------------------
  // A sending session's wire
  // ---------------------------------------------------------------------

  /** Everything transmitted, in order. */
  function Sent(log: seq<Output>): seq<Message> {
    if log == [] then []
    else
      var before, last := Sent(log[..|log| - 1]), log[|log| - 1];
      if last.Transmit? then before + [OnWire(last.msg)] else before
  }

  /** The new messages among them. */
  function SentNew(log: seq<Output>): seq<Message> {
    if log == [] then []
    else
      var before, last := SentNew(log[..|log| - 1]), log[|log| - 1];
      if SendsNew(last) then before + [OnWire(last.msg)] else before
  }

  /** The gap fills and retransmissions among them. */
  function SentAgain(log: seq<Output>): seq<Message> {
    if log == [] then []
    else
      var before, last := SentAgain(log[..|log| - 1]), log[|log| - 1];
      if last.Transmit? && !SendsNew(last) then before + [OnWire(last.msg)] else before
  }

  lemma {:induction false} SentAppend(a: seq<Output>, b: seq<Output>)
    ensures Sent(a + b) == Sent(a) + Sent(b)
    ensures SentNew(a + b) == SentNew(a) + SentNew(b)
  {
    if b == [] {
      assert a + b == a;
    } else {
      assert (a + b)[..|a + b| - 1] == a + b[..|b| - 1];
      SentAppend(a, b[..|b| - 1]);
    }
  }

  ghost predicate NoAnnouncements(log: seq<Output>) {
    forall i :: 0 <= i < |log| ==> !Announces(log[i])
  }

  /** With no replay outstanding, and until one is announced, everything sent is new, and numbered up to `lastNew`. */
  lemma {:induction false} OnlyNewAtFirst(w: Observer, log: seq<Output>)
    requires w.due > w.end && NoAnnouncements(log) && WatchAll(Some(w), log).Some?
    ensures WatchAll(Some(w), log).value.due == w.due && WatchAll(Some(w), log).value.end == w.end
    ensures forall i :: 0 <= i < |Sent(log)| ==>
              Sent(log)[i].seqNum.Some? && Sent(log)[i].seqNum.value <= WatchAll(Some(w), log).value.lastNew
    ensures forall i, j :: 0 <= i < j < |Sent(log)| ==> Sent(log)[i].seqNum.value < Sent(log)[j].seqNum.value
  {
    if log != [] {
      OnlyNewAtFirst(w, log[..|log| - 1]);
    }
  }

  /** What the observer accepts as replayed lies in the sequence from the number due to the next. */
  lemma {:induction false} ReplayedPiece(w: Observer, o: Output)
    requires o.Transmit? && !SendsNew(o) && Watch(Some(w), o).Some?
    ensures var w', msg := Watch(Some(w), o).value, OnWire(o.msg);
            && Numbered(msg) && !msg.msgType.Logout?
            && w.due <= w.end && w' == w.(due := w'.due) && w'.due <= w.end + 1
            && PieceOf(msg).First() == w.due <= PieceOf(msg).Last() && PieceOf(msg).Last() + 1 == w'.due
  {
  }

  /** From an announcement on, the replay comes first, and then what is new. */
  lemma {:induction false} ReplayComesFirst(w: Observer, log: seq<Output>)
    requires NoAnnouncements(log) && WatchAll(Some(w), log).Some?
    ensures Sent(log) == SentAgain(log) + SentNew(log)
    ensures SentNew(log) != [] ==> WatchAll(Some(w), log).value.due > WatchAll(Some(w), log).value.end
  {
    if log != [] {
      var before, last := log[..|log| - 1], log[|log| - 1];
      ReplayComesFirst(w, before);
      var mid := WatchAll(Some(w), before).value;
      if last.Transmit? && !SendsNew(last) {
        ReplayedPiece(mid, last);
      } else {
        WatchNew(mid, last);
      }
    }
  }

  /** ... and the replay runs end to end from the start of the announced range. */
  lemma {:induction false} ReplayRunsOn(w: Observer, log: seq<Output>)
    requires NoAnnouncements(log) && WatchAll(Some(w), log).Some?
    ensures var w' := WatchAll(Some(w), log).value;
            && w'.end == w.end && (w'.due <= w.end + 1 || w'.due == w.due)
            && Ordinary(SentAgain(log))
            && Tiles(Pieces(SentAgain(log)), w.due, w'.due)
  {
    if log != [] {
      hide Ordinary, PieceOf, Numbered;
      var before, last := log[..|log| - 1], log[|log| - 1];
      ReplayRunsOn(w, before);
      var mid := WatchAll(Some(w), before).value;
      if last.Transmit? && !SendsNew(last) {
        ReplayedPiece(mid, last);
        SnocTiles(SentAgain(before), OnWire(last.msg), w.due, mid.due);
      } else {
        WatchNew(mid, last);
      }
    } else {
      assert Ordinary([]);
    }
  }

  lemma {:induction false} SnocTiles(msgs: seq<Message>, msg: Message, lo: nat, mid: nat)
    requires Ordinary(msgs) && Numbered(msg) && !msg.msgType.Logout?
    requires Tiles(Pieces(msgs), lo, mid)
    requires PieceOf(msg).First() == mid <= PieceOf(msg).Last()
    ensures Ordinary(msgs + [msg])
    ensures Tiles(Pieces(msgs + [msg]), lo, PieceOf(msg).Last() + 1)
  {
    assert (msgs + [msg])[..|msgs|] == msgs;
    assert [PieceOf(msg)][1..] == [];
    TilesAppend(Pieces(msgs), [PieceOf(msg)], lo, mid, PieceOf(msg).Last() + 1);
  }

  lemma {:induction false} WatchNew(w: Observer, o: Output)
    requires !Announces(o) && Watch(Some(w), o).Some? && !(o.Transmit? && !SendsNew(o))
    ensures Watch(Some(w), o).value.due == w.due && Watch(Some(w), o).value.end == w.end
    ensures SendsNew(o) ==> w.due > w.end
  {
  }

  // ---------------------------------------------------------------------
  // Both ends together
  // ---------------------------------------------------------------------

  /** The peer's request for everything from `n` on. */
  predicate OpenEndedRequest(input: Input, n: nat) {
    && input.Receive? && input.msg.msgType.ResendRequest?
    && input.msg.beginSeqNo == Some(n) && input.msg.endSeqNo == Some(0)
  }

  lemma {:induction false} RunAppend(s: SessionView, a: seq<Input>, b: seq<Input>)
    requires s.WellFormed()
    ensures After(s, a + b) == After(After(s, a), b)
    ensures Log(s, a + b) == Log(s, a) + Log(After(s, a), b)
  {
    hide StepOf;
    if b == [] {
      assert a + b == a;
    } else {
      assert (a + b)[..|a + b| - 1] == a + b[..|b| - 1];
      RunAppend(s, a, b[..|b| - 1]);
    }
  }

  /** The observer hears of the range asked for, which ends at the highest number sent. */
  ghost predicate Announced(s: SessionView, out: seq<Output>, n: nat, w: Observer) {
    WatchAll(Some(w), out) == Some(Observer(w.lastNew, n, s.highestSent))
  }

  lemma {:induction false} DispatchAnnounces(s: SessionView, msg: Message, inSequence: bool, now: nat, n: nat,
                                             w: Observer)
    requires msg.seqNum.Some? && msg.msgType.ResendRequest? && msg.beginSeqNo == Some(n) && msg.endSeqNo == Some(0)
    requires w.due > w.end && n >= 1
    requires DispatchMessage(s, msg, inSequence, now).outcome != Fail
    ensures Announced(s, DispatchMessage(s, msg, inSequence, now).out, n, w)
  {
    var announce := Raise(ResendRequested(n, s.highestSent));
    assert OpenReplay(s, msg).out == [announce];
    WatchOne(Some(w), announce);
    WatchTwo(Some(w), announce, Raise(InboundAdvanced(s.nextIn)));
  }

  lemma {:induction false} UnwatchedAfter(a: seq<Output>, b: seq<Output>, w: Option<Observer>)
    requires forall i :: 0 <= i < |b| ==> Unwatched(b[i])
    ensures WatchAll(w, a + b) == WatchAll(w, a)
  {
    WatchAppend(w, a, b);
    WatchUnwatched(WatchAll(w, a), b);
  }

  lemma {:induction false} UnwatchedBefore(a: seq<Output>, b: seq<Output>, w: Option<Observer>)
    requires forall i :: 0 <= i < |a| ==> Unwatched(a[i])
    ensures WatchAll(w, a + b) == WatchAll(w, b)
  {
    WatchAppend(w, a, b);
    WatchUnwatched(w, a);
  }

  lemma {:induction false} HandleAnnounces(s: SessionView, msg: Message, now: nat, n: nat, w: Observer)
    requires msg.seqNum.Some? && msg.msgType.ResendRequest? && msg.beginSeqNo == Some(n) && msg.endSeqNo == Some(0)
    requires w.due > w.end && n >= 1 && s.nextIn <= msg.seqNum.value
    requires HandleSessionMessage(s, msg, now).outcome != Fail
    ensures Announced(s, HandleSessionMessage(s, msg, now).out, n, w)
  {
    hide DispatchMessage;
    if msg.seqNum.value == s.nextIn {
      var d := DispatchMessage(Advanced(s, msg), msg, true, now);
      DispatchAnnounces(Advanced(s, msg), msg, true, now, n, w);
      UnwatchedAfter(d.out, RequestLogout(d.s, LOGOUT_RECEIVED, now).out, Some(w));
    } else {
      var ask := AskForGap(s, msg);
      DispatchAnnounces(ask.s, msg, false, now, n, w);
      UnwatchedBefore(ask.out, DispatchMessage(ask.s, msg, false, now).out, Some(w));
    }
  }

  lemma {:induction false} NothingSent(log: seq<Output>)
    requires forall i :: 0 <= i < |log| ==> !log[i].Transmit?
    ensures Sent(log) == [] && SentNew(log) == []
  {
    if log != [] {
      NothingSent(log[..|log| - 1]);
    }
  }

  /** Servicing the request announces everything sent so far, and sends nothing yet. */
  lemma {:induction false} RequestAnnounces(s: SessionView, input: Input, n: nat, w: Observer)
    requires s.WellFormed() && OpenEndedRequest(input, n) && s.closing.None?
    requires w.due > w.end && n >= 1 && input.msg.seqNum.Some? && s.nextIn <= input.msg.seqNum.value
    requires StepOf(s, input).outcome != Fail
    ensures Announced(s, StepOf(s, input).out, n, w)
    ensures Sent(StepOf(s, input).out) == []
  {
    hide HandleSessionMessage;
    var s1 := s.(timers := s.timers.(nextIn := input.now + s.interval, missed := 0));
    var h, received := HandleSessionMessage(s1, input.msg, input.now), [Raise(RawMessageReceived(input.msg))];
    HandleAnnounces(s1, input.msg, input.now, n, w);
    UnwatchedBefore(received, h.out, Some(w));
    HandleSendsNothing(s1, input.msg, input.now);
    NothingSent(received + h.out);
  }

  /**
   * A sender's run: whatever it did earlier, then what it sends before the request, the request,
   * and what it does until the replay is done and beyond.
   */
  datatype Sender = Sender(interval: nat, nextIn: nat, now: nat, earlier: seq<Input>, before: seq<Input>, request: Input,
                           after: seq<Input>)
  {
    function Start(): SessionView {
      SessionRuns.After(Initial(interval, nextIn, now), earlier)
    }

    function AtRequest(): SessionView {
      SessionRuns.After(Start(), before)
    }

    function Serviced(): SessionView {
      StepOf(AtRequest(), request).s
    }

    function End(): SessionView {
      SessionRuns.After(Serviced(), after)
    }

    /** What goes out ahead of the request. */
    function Ahead(): seq<Message> {
      Sent(Log(Start(), before))
    }

    /** Everything this end puts on the wire from then on. */
    function Wire(): seq<Message> {
      Ahead() + Sent(Log(Serviced(), after))
    }

    /** What it sends for the first time after the request. */
    function Later(): seq<Message> {
      SentNew(Log(Serviced(), after))
    }

    predicate Timed() {
      && AllCarryTime(Initial(interval, nextIn, now), earlier)
      && AllCarryTime(Start(), before)
      && AllCarryTime(Serviced(), after)
    }

    /**
     * The first `lost` messages never arrive, and the next one is numbered beyond `n`. The request
     * for everything from `n` on is answered in full, and is the only one meanwhile; what is sent
     * after it is numbered without gaps.
     */
    ghost predicate Answers(n: nat, lost: nat) {
      && n >= 1 && OpenEndedRequest(request, n) && Timed()
      && Start().replay.None?
      && NoAnnouncements(Log(Start(), before)) && NoAnnouncements(Log(Serviced(), after))
      && AtRequest().closing.None? && StepOf(AtRequest(), request).outcome != Fail
      && request.msg.seqNum.Some? && AtRequest().nextIn <= request.msg.seqNum.value
      && End().replay.None?
      && lost < |Ahead()| && Ahead()[lost].seqNum.Some? && Ahead()[lost].seqNum.value > n
      && Ordinary(Wire()[lost..])
      && Contiguous(Later(), AtRequest().highestSent + 1)
    }
  }

  /** What arrives from the answering end: new messages, the replay of the whole range, what came later. */
  lemma {:induction false} SenderWire(p: Sender, n: nat, lost: nat) returns (flight: seq<Message>, replay: seq<Message>)
    requires p.Answers(n, lost)
    ensures lost <= |p.Wire()| && p.Wire()[lost..] == flight + replay + p.Later()
    ensures flight != []
    ensures forall i :: 0 <= i < |flight| ==> Numbered(flight[i]) && n < flight[i].seqNum.value <= p.AtRequest().highestSent
    ensures Ordinary(replay) && Tiles(Pieces(replay), n, p.AtRequest().highestSent + 1)
  {
    hide StepOf, Consistent, Ordinary, Contiguous, Tiles, WatchAll, Log;
    var log1, log3 := Log(p.Start(), p.before), Log(p.Serviced(), p.after);
    OutboundOrder(p.interval, p.nextIn, p.now, p.earlier);
    var s1, w0 := p.AtRequest(), WatchAll(Some(START), Log(Initial(p.interval, p.nextIn, p.now), p.earlier)).value;
    RunFollows(p.Start(), p.before, w0);
    var w := WatchAll(Some(w0), log1).value;
    Consistency(p.Start(), w0);
    OnlyNewAtFirst(w0, log1);
    RequestAnnounces(s1, p.request, n, w);
    StepFollows(s1, p.request, w);
    var w1 := Observer(w.lastNew, n, s1.highestSent);
    RunFollows(p.Serviced(), p.after, w1);
    ReplayComesFirst(w1, log3);
    ReplayRunsOn(w1, log3);
    flight, replay := p.Ahead()[lost..], SentAgain(log3);
    assert p.Wire()[lost..] == flight + (replay + p.Later());
    Consistency(s1, w);
    Consistency(p.End(), WatchAll(Some(w1), log3).value);
    FlightBounds(flight, replay + p.Later(), n, s1.highestSent);
    assert flight[0].seqNum.value <= s1.highestSent;
  }

  lemma {:induction false} Consistency(s: SessionView, w: Observer)
    requires Consistent(s, w)
    ensures w.lastNew <= s.highestSent
    ensures s.replay.None? ==> w.due > w.end
  {
  }

  lemma {:induction false} FlightBounds(flight: seq<Message>, rest: seq<Message>, n: nat, hi: nat)
    requires Ordinary(flight + rest) && flight != [] && flight[0].seqNum.Some? && flight[0].seqNum.value > n
    requires forall i :: 0 <= i < |flight| ==> flight[i].seqNum.Some? && flight[i].seqNum.value <= hi
    requires forall i, j :: 0 <= i < j < |flight| ==> flight[i].seqNum.value < flight[j].seqNum.value
    ensures forall i :: 0 <= i < |flight| ==> Numbered(flight[i]) && n < flight[i].seqNum.value <= hi
  {
    assert forall i :: 0 <= i < |flight| ==> (flight + rest)[i] == flight[i];
  }

  /**
   * Recovery, of a gap found when the peer's Logon comes or at any time after. A receiver that
   * expects `n` and has no gap open misses some of what the other end sends, and takes in the rest
   * as it comes: what is in flight, the replay its request leads to (whatever the application offers
   * for it, in any order) and what is sent meanwhile. It may do anything else in between. It asks
   * for one resend, from `n`; finds no number too low; and ends with no gap, expecting one past
   * everything the other end sent.
   */
  lemma {:induction false} TwoPeerRecovery(p: Sender, n: nat, lost: nat, receiver: SessionView, inputs: seq<Input>)
    requires p.Answers(n, lost)
    requires receiver.WellFormed() && Open(receiver) && CursorOf(receiver) == Cursor(n, None)
    requires lost <= |p.Wire()| && Received(inputs) == p.Wire()[lost..] && Attentive(receiver, inputs)
    ensures NeverLow(CursorOf(receiver), Received(inputs))
    ensures ResendBegins(Log(receiver, inputs)) == [n]
    ensures Open(After(receiver, inputs))
    ensures CursorOf(After(receiver, inputs)) == Cursor(p.AtRequest().highestSent + 1 + |p.Later()|, None)
  {
    hide StepOf, Tiles, Log, TakeAll, Asks, NeverLow, Attentive, Contiguous;
    var flight, replay := SenderWire(p, n, lost);
    StreamRecovers(n, p.AtRequest().highestSent, flight, replay, p.Later());
    SessionTakes(receiver, inputs);
  }
}
