/**
 * Gaps in what comes in, over whole runs (session/state.rs:675-784): when one opens and closes, that it is
 * asked for once, and that a Logout beyond it waits.
 */
module Gaps {
  import opened FixMessage
  import opened Logs
  import opened Replaying
  import opened Session
  import opened SessionRuns
  import opened Inbound
  import opened Deliveries
  import opened Timekeeping

  /** A message heard beyond the number expected. */
  predicate Beyond(expected: nat, heard: Option<Message>) {
    heard.Some? && !Unplaceable(heard.value) && heard.value.seqNum.value > expected
  }

  /** What a message heard does to a gap: it opens one up to itself, or brings one to its end. */
  function GapAfter(gap: Option<nat>, expected: nat, heard: Option<Message>): Option<nat> {
    if Beyond(expected, heard) then (if gap.Some? then gap else heard.value.seqNum)
    else if && heard.Some? && StandsFor(heard.value).Some? && StandsFor(heard.value).value.First() == expected
            && gap.Some? && StandsFor(heard.value).value.Last() + 1 >= gap.value
    then None else gap
  }

  /** The number a gap reaches up to, if there is one. */
  function GapOf(s: SessionView, inputs: seq<Input>): Option<nat>
    requires s.WellFormed()
  {
    if inputs == [] then None
    else
      var before := After(s, inputs[..|inputs| - 1]);
      GapAfter(GapOf(s, inputs[..|inputs| - 1]), before.nextIn, Heard(before, inputs[|inputs| - 1]))
  }

  /** A Logout came beyond the number expected. */
  predicate LogoutBeyond(s: SessionView, inputs: seq<Input>)
    requires s.WellFormed()
  {
    && inputs != []
    && var before, last := After(s, inputs[..|inputs| - 1]), inputs[|inputs| - 1];
       || LogoutBeyond(s, inputs[..|inputs| - 1])
       || (Beyond(before.nextIn, Heard(before, last)) && Heard(before, last).value.msgType.Logout?)
  }

  predicate Tracks(s: SessionView, heard: Option<Message>, r: Step) {
    && r.s.rerequest == GapAfter(s.rerequest, s.nextIn, heard)
    && r.s.peerLogoutPending
       == (s.peerLogoutPending || (Beyond(s.nextIn, heard) && heard.value.msgType.Logout?))
  }

  lemma {:induction false} GapTracks(s: SessionView, msg: Message, now: nat)
    requires !Unplaceable(msg) && msg.seqNum.value > s.nextIn
    ensures Tracks(s, Some(msg), HandleGap(s, msg, now))
  {
    hide StandsFor, OpenReplay;
  }

  lemma {:induction false} InSequenceTracks(s: SessionView, msg: Message, now: nat)
    requires !Unplaceable(msg) && msg.seqNum.value == s.nextIn
    ensures Tracks(s, Some(msg), HandleInSequence(s, msg, now))
  {
    hide DispatchMessage, RequestLogout;
  }

  lemma {:induction false} HandleTracks(s: SessionView, msg: Message, now: nat)
    ensures Tracks(s, Some(msg), HandleSessionMessage(s, msg, now))
  {
    UnplaceableStands(msg);
    hide HandleInSequence, HandleGap, RequestLogout, StandsFor;
    if !Unplaceable(msg) {
      if msg.seqNum.value == s.nextIn {
        InSequenceTracks(s, msg, now);
      } else if msg.seqNum.value > s.nextIn {
        GapTracks(s, msg, now);
      }
    }
  }

  lemma {:induction false} StepTracks(s: SessionView, input: Input)
    requires s.WellFormed()
    ensures Tracks(s, Heard(s, input), StepOf(s, input))
  {
    hide HandleSessionMessage, OnCommand, OnTimeout, StandsFor;
    match input
    case Receive(msg, now) => HandleTracks(s.(timers := s.timers.(nextIn := now + s.interval, missed := 0)), msg, now);
    case PeerLogon(logon, now) => HandleTracks(s, logon, now);
    case Apply(cmd, now) => CommandTracks(s, cmd, now);
    case Tick(now) =>
    case AskLogon =>
    case PeerClosed =>
  }

  lemma {:induction false} CommandTracks(s: SessionView, cmd: Command, now: nat)
    requires s.WellFormed()
    ensures var r := OnCommand(s, cmd, now);
            r.s.rerequest == s.rerequest && r.s.peerLogoutPending == s.peerLogoutPending
  {
    hide SendMessage, ReplayMessage, CompleteReplay;
    var s1 := s.(timers := s.timers.(nextOut := now + s.interval));
    match cmd
    case Send(msg) => SendUnheard(s, msg, now);
    case Replay(msg) => ReplayUnheard(s1, msg);
    case ReplayComplete => CompleteUnheard(s1);
    case Disconnect =>
  }

  lemma {:induction false} GapKnown(interval: nat, nextIn: nat, now: nat, inputs: seq<Input>)
    ensures var s := Initial(interval, nextIn, now);
            After(s, inputs).rerequest == GapOf(s, inputs) && After(s, inputs).peerLogoutPending == LogoutBeyond(s, inputs)
  {
    if inputs != [] {
      hide StepOf, GapAfter, Beyond, Heard;
      var s, before, last := Initial(interval, nextIn, now), inputs[..|inputs| - 1], inputs[|inputs| - 1];
      GapKnown(interval, nextIn, now, before);
      StepTracks(After(s, before), last);
    }
  }

  /** The requests a run calls for: one for each message beyond the number expected that finds no gap open, from that number. */
  function Missing(s: SessionView, inputs: seq<Input>): seq<nat>
    requires s.WellFormed()
  {
    if inputs == [] then []
    else
      var before := inputs[..|inputs| - 1];
      var a := After(s, before);
      Missing(s, before)
      + if GapOf(s, before).None? && Beyond(a.nextIn, Heard(a, inputs[|inputs| - 1])) then [a.nextIn] else []
  }

  /**
   * Over any run, a resend is asked for once for each gap: when a message comes beyond the number expected
   * and no gap is open, and from that number. A gap is open until the numbers up to the message that opened
   * it have been used up.
   */
  lemma {:induction false} GapsAskedForOnce(interval: nat, nextIn: nat, now: nat, inputs: seq<Input>)
    ensures var s := Initial(interval, nextIn, now);
            ResendBegins(Log(s, inputs)) == Missing(s, inputs)
  {
    if inputs != [] {
      hide StepOf, Beyond, Heard, ResendBegins, StandsFor;
      var s, before, last := Initial(interval, nextIn, now), inputs[..|inputs| - 1], inputs[|inputs| - 1];
      var mid := After(s, before);
      GapsAskedForOnce(interval, nextIn, now, before);
      GapKnown(interval, nextIn, now, before);
      StepTracks(mid, last);
      StepAsks(mid, last);
      BeyondNumbered(mid.nextIn, Heard(mid, last));
      BeginsAppend(Log(s, before), StepOf(mid, last).out);
    }
  }

  lemma {:induction false} BeyondNumbered(expected: nat, heard: Option<Message>)
    ensures Beyond(expected, heard) ==> heard.Some? && heard.value.seqNum.Some?
  {
  }

  /** The end of a gap, or no gap at all, in what follows. */
  predicate NoGapLeft(s: SessionView, inputs: seq<Input>, input: Input)
    requires s.WellFormed()
  {
    GapAfter(GapOf(s, inputs), After(s, inputs).nextIn, Heard(After(s, inputs), input)).None?
  }

  /**
   * Over any run of a session that is not ending, a message heard without failing makes it answer a Logout if
   * and only if it comes in sequence and either is that Logout or leaves no gap that one came beyond.
   */
  lemma {:induction false} LogoutAnsweredWhen(interval: nat, nextIn: nat, now: nat, inputs: seq<Input>, input: Input)
    requires var a := After(Initial(interval, nextIn, now), inputs);
             Heard(a, input).Some? && a.closing.None? && StepOf(a, input).outcome != Fail
    ensures var s := Initial(interval, nextIn, now);
            var a := After(s, inputs);
            var msg := Heard(a, input).value;
            Picked(StepOf(a, input).out, LogoutIn) == [LOGOUT_RECEIVED]
            <==> && msg.seqNum == Some(a.nextIn)
                 && (msg.msgType.Logout? || (LogoutBeyond(s, inputs) && NoGapLeft(s, inputs, input)))
  {
    hide After, LogoutBeyond, GapOf, HandleSessionMessage, OnCommand, OnTimeout, StartTail, Picked, Log;
    var s := Initial(interval, nextIn, now);
    var a := After(s, inputs);
    var msg := Heard(a, input).value;
    GapKnown(interval, nextIn, now, inputs);
    LogoutAskedWhen(a, input);
    TextsDiffer();
    AcceptedInSequence(a, input, msg);
    UnplaceableStands(msg);
    hide StepOf, Closes;
    ClosesPicks(a, input);
  }

  lemma {:induction false} ClosesPicks(s: SessionView, input: Input)
    requires s.WellFormed()
    requires Closes(s, TimeOf(input), StepOf(s, input), LogoutsBy(s, input, StepOf(s, input)))
    ensures Picked(StepOf(s, input).out, LogoutIn) == LogoutsBy(s, input, StepOf(s, input))
  {
    hide StepOf, LogoutsBy, Picked;
  }

  lemma {:induction false} TextsDiffer()
    ensures TOO_LOW != LOGOUT_RECEIVED && [TOO_LOW] != [LOGOUT_RECEIVED]
  {
    assert TOO_LOW[0] != LOGOUT_RECEIVED[0];
    assert [TOO_LOW][0] == TOO_LOW;
  }

  /** A message that is heard without failing, in sequence, stands for numbers. */
  lemma {:induction false} AcceptedInSequence(s: SessionView, input: Input, msg: Message)
    requires s.WellFormed() && Heard(s, input) == Some(msg) && s.closing.None? && StepOf(s, input).outcome != Fail
    ensures !Unplaceable(msg)
    ensures msg.seqNum == Some(s.nextIn) ==> StandsFor(msg).Some? && StandsForNumbers(msg)
  {
    hide DispatchMessage, HandleGap, RequestLogout, StartTail;
  }
}
