/**
 * What the application is told through the sequencer (sequencer.rs:287-293, 505-552), over whole runs:
 * everything the session raises but what the sequencer sees to itself.
 */
module Reports {
  import opened FixMessage
  import opened Logs
  import opened Replaying
  import opened Session
  import opened SessionRuns
  import opened Inbound
  import opened Deliveries
  import opened Sequencing
  import opened SequencerRuns
  import opened Composed

  function PassedOf(e: SeqEvent): seq<Event> {
    if e.Passed? then [e.event] else []
  }

  /** What is for the application: not a message to be sent for the session, nor a count that moved. */
  predicate ForApp(event: Event) {
    !event.AdminSendRequired? && !event.InboundAdvanced?
  }

  function RaisedBy(o: Output): seq<Event> {
    if o.Raise? && ForApp(o.event) then [o.event] else []
  }

  function BroughtBy(a: Action): seq<Event> {
    if a.FromSession? && ForApp(a.event) then [a.event] else []
  }

  lemma {:induction false} AskTells(q: SeqView)
    ensures Picked(AskForWatermark(q).out, PassedOf) == []
  {
    NonePicked(AskForWatermark(q).out, PassedOf);
  }

  lemma {:induction false} EventTells(q: SeqView, event: Event, clock: nat)
    ensures Picked(OnSessionEvent(q, event, clock).out, PassedOf) == if ForApp(event) then [event] else []
    ensures OnSessionEvent(q, event, clock).ok <==> !(q.failed && event.AdminSendRequired?)
  {
    hide Picked, AskForWatermark;
    PickedOne([Passed(event)], PassedOf);
    match event
    case AdminSendRequired(msg) => NonePicked(Assign(q, msg, clock).out, PassedOf);
    case MessageReceived(n, msg) =>
      AskTells(NoteDelivered(q, n));
      PickedAppend([Passed(event)], AskForWatermark(NoteDelivered(q, n)).out, PassedOf);
    case InboundAdvanced(nextIn) => AskTells(NoteAdvanced(q, nextIn));
    case _ =>
  }

  lemma {:induction false} ActTells(q: SeqView, a: Action)
    ensures Picked(Act(q, a).out, PassedOf) == BroughtBy(a)
  {
    hide Picked, OnSessionEvent, Watermark;
    if a.FromSession? {
      EventTells(q, a.event, a.clock);
    } else {
      NonePicked(Act(q, a).out, PassedOf);
    }
  }

  /**
   * Over any run of the sequencer, whatever is refused or fails on the way: the session's events the
   * application is told of are, in order, all that came but requests to send and counts that moved.
   */
  lemma {:induction false} ToldInOrder(q: SeqView, actions: seq<Action>)
    ensures Picked(ToldBy(q, actions), PassedOf) == Picked(actions, BroughtBy)
  {
    hide Act, PassedOf, BroughtBy;
    if actions == [] {
      NonePicked<SeqEvent, Event>([], PassedOf);
      NonePicked<Action, Event>([], BroughtBy);
    } else {
      var before, last := actions[..|actions| - 1], actions[|actions| - 1];
      ToldInOrder(q, before);
      ActTells(AfterActions(q, before), last);
      PickedAppend(ToldBy(q, before), Act(AfterActions(q, before), last).out, PassedOf);
    }
  }

  // ---------------------------------------------------------------------
  // One call of the session
  // ---------------------------------------------------------------------

  predicate AsksToSend(o: Output) {
    o.Raise? && o.event.AdminSendRequired?
  }

  /** What comes before the first request to send. */
  function BeforeRequest(log: seq<Output>): seq<Output> {
    if log == [] || AsksToSend(log[0]) then [] else [log[0]] + BeforeRequest(log[1..])
  }

  predicate NeverAsks(log: seq<Output>) {
    forall i :: 0 <= i < |log| ==> !AsksToSend(log[i])
  }

  /**
   * What a session call raises reaches the application in order. Once a write has failed the first request
   * to send is refused: the call fails, and the rest is not passed on.
   */
  lemma {:induction false} CallTells(q: SeqView, log: seq<Output>, clock: nat)
    ensures var r := PassOn(q, log, clock);
            && Picked(r.out, PassedOf) == Picked(if q.failed then BeforeRequest(log) else log, RaisedBy)
            && (r.ok <==> !q.failed || NeverAsks(log))
    decreases |log|
  {
    hide Picked, OnSessionEvent, PassedOf;
    if log == [] {
      PickedOne<SeqEvent, Event>([], PassedOf);
      PickedOne<Output, Event>([], RaisedBy);
    } else {
      var first, rest := log[0], log[1..];
      assert log == [first] + rest;
      PickedOne([first], RaisedBy);
      PickedAppend([first], rest, RaisedBy);
      PickedAppend([first], BeforeRequest(rest), RaisedBy);
      RestAsks(log);
      if first.Transmit? {
        CallTells(q, rest, clock);
        assert [] + Picked(rest, RaisedBy) == Picked(rest, RaisedBy);
      } else {
        EventTells(q, first.event, clock);
        var one := OnSessionEvent(q, first.event, clock);
        if one.ok {
          CallTells(one.q, rest, clock);
          PickedAppend(one.out, PassOn(one.q, rest, clock).out, PassedOf);
        } else {
          PickedOne<Output, Event>([], RaisedBy);
        }
      }
    }
  }

  lemma {:induction false} RestAsks(log: seq<Output>)
    requires log != []
    ensures NeverAsks(log) <==> !AsksToSend(log[0]) && NeverAsks(log[1..])
  {
    hide AsksToSend;
    if !AsksToSend(log[0]) && NeverAsks(log[1..]) {
      assert forall i :: 1 <= i < |log| ==> log[i] == log[1..][i - 1];
    }
  }

  // ---------------------------------------------------------------------
  // A session and its sequencer
  // ---------------------------------------------------------------------

  /** What an input means to the session. */
  function InputOf(n: Node, i: NodeInput): seq<Input> {
    match i
    case OnSession(input, _) => [input]
    case HandOne(now, _) => if CanPop(n.q) then [Apply(Send(n.q.ready[0]), now)] else []
    case OnSequencer(_) => []
  }

  /** The run of the session in a run of the pair. */
  ghost function SessionInputs(n: Node, inputs: seq<NodeInput>): seq<Input>
    requires n.s.WellFormed()
  {
    if inputs == [] then []
    else
      var before := inputs[..|inputs| - 1];
      SessionInputs(n, before) + InputOf(NodeAfter(n, before), inputs[|inputs| - 1])
  }

  lemma {:induction false} StepIsSession(n: Node, i: NodeInput)
    requires n.s.WellFormed()
    ensures var r := NodeStepOf(n, i);
            InputOf(n, i) == [] ==> r.s == n.s && r.wire == []
    ensures var r := NodeStepOf(n, i);
            InputOf(n, i) != [] ==> |InputOf(n, i)| == 1 && var st := StepOf(n.s, InputOf(n, i)[0]); r.s == st.s && r.wire == st.out
  {
    hide OnCommand, PassOn, Act;
  }

  /** The session in the pair does what it does alone, given the same inputs. */
  lemma {:induction false} PairIsSession(n: Node, inputs: seq<NodeInput>)
    requires n.s.WellFormed()
    ensures NodeAfter(n, inputs).s == After(n.s, SessionInputs(n, inputs))
    ensures NodeLog(n, inputs) == Log(n.s, SessionInputs(n, inputs))
  {
    if inputs != [] {
      hide NodeStepOf, StepOf, InputOf;
      var before, last := inputs[..|inputs| - 1], inputs[|inputs| - 1];
      var mid, done := NodeAfter(n, before), SessionInputs(n, before);
      PairIsSession(n, before);
      StepIsSession(mid, last);
      if InputOf(mid, last) != [] {
        assert SessionInputs(n, inputs)[..|done|] == done;
      } else {
        assert done + [] == done;
      }
    }
  }

  /** What the application is told by the pair. */
  ghost function NodeTold(n: Node, inputs: seq<NodeInput>): seq<SeqEvent>
    requires n.s.WellFormed()
  {
    if inputs == [] then []
    else
      var before := inputs[..|inputs| - 1];
      NodeTold(n, before) + NodeStepOf(NodeAfter(n, before), inputs[|inputs| - 1]).out
  }

  /** No write fails, and the sequencer is handed events and hands over messages only by way of the session. */
  predicate Going(i: NodeInput) {
    i.OnSequencer? ==> !i.action.WriteFailed? && !i.action.FromSession? && !i.action.Hand?
  }

  lemma {:induction false} StepReaches(n: Node, i: NodeInput)
    requires n.s.WellFormed() && !n.q.failed && Going(i)
    ensures var r := NodeStepOf(n, i);
            !r.q.failed && Picked(r.out, PassedOf) == Picked(r.wire, RaisedBy)
  {
    hide Picked, StepOf, OnCommand, PassOn, PassedOf, RaisedBy;
    PickedOne<Output, Event>([], RaisedBy);
    PickedOne<SeqEvent, Event>([], PassedOf);
    match i
    case OnSession(input, clock) => CallTells(n.q, StepOf(n.s, input).out, clock);
    case HandOne(now, clock) =>
      if CanPop(n.q) {
        CallTells(n.q.(ready := n.q.ready[1..]), OnCommand(n.s, Send(n.q.ready[0]), now).out, clock);
      }
    case OnSequencer(a) =>
      ActTells(n.q, a);
      ActGoesOn(n.q, a);
      hide Act;
  }

  lemma {:induction false} ActGoesOn(q: SeqView, a: Action)
    requires !q.failed && !a.WriteFailed?
    ensures !Act(q, a).q.failed
  {
    hide Watermark;
  }

  /** As long as no write fails, the application is told all the session raises for it, in order. */
  lemma {:induction false} AllReachesApp(n: Node, inputs: seq<NodeInput>)
    requires n.s.WellFormed() && !n.q.failed
    requires forall i :: 0 <= i < |inputs| ==> Going(inputs[i])
    ensures !NodeAfter(n, inputs).q.failed
    ensures Picked(NodeTold(n, inputs), PassedOf) == Picked(NodeLog(n, inputs), RaisedBy)
  {
    hide NodeStepOf, Picked, PassedOf, RaisedBy, Going;
    if inputs == [] {
      PickedOne<Output, Event>([], RaisedBy);
      PickedOne<SeqEvent, Event>([], PassedOf);
    } else {
      var before, last := inputs[..|inputs| - 1], inputs[|inputs| - 1];
      var mid := NodeAfter(n, before);
      AllReachesApp(n, before);
      StepReaches(mid, last);
      PickedAppend(NodeTold(n, before), NodeStepOf(mid, last).out, PassedOf);
      PickedAppend(NodeLog(n, before), NodeStepOf(mid, last).wire, RaisedBy);
    }
  }

  function ReceivedIn(event: Event): seq<(nat, Message)> {
    if event.MessageReceived? then [(event.seqNum, event.msg)] else []
  }

  function HandedBy(e: SeqEvent): seq<(nat, Message)> {
    if e.Passed? then ReceivedIn(e.event) else []
  }

  /** Picking from what was picked. */
  lemma {:induction false} PickedTwice<S, T, U>(log: seq<S>, f: S -> seq<T>, g: T -> seq<U>, h: S -> seq<U>)
    requires forall i :: 0 <= i < |log| ==> h(log[i]) == Picked(f(log[i]), g)
    ensures Picked(Picked(log, f), g) == Picked(log, h)
    decreases |log|
  {
    if log == [] {
      PickedOne<T, U>([], g);
    } else {
      var k := |log| - 1;
      PickedTwice(log[..k], f, g, h);
      PickedAppend(Picked(log[..k], f), f(log[k]), g);
    }
  }

  /**
   * As long as no write fails: over any run of a session behind its sequencer, the messages the application
   * is handed are, in order and under their own numbers, the application messages and Rejects that the
   * session used up in sequence.
   */
  lemma {:induction false} HandedThrough(n: Node, inputs: seq<NodeInput>)
    requires n.s.WellFormed() && !n.q.failed
    requires forall i :: 0 <= i < |inputs| ==> Going(inputs[i])
    ensures Picked(NodeTold(n, inputs), HandedBy) == ForApplication(Taken(n.s, SessionInputs(n, inputs)))
  {
    AllReachesApp(n, inputs);
    PairIsSession(n, inputs);
    HandedInOrder(n.s, SessionInputs(n, inputs));
    hide NodeTold, NodeLog, NodeAfter, SessionInputs, Taken, Log, After, ForApplication;
    ReadOff(NodeTold(n, inputs), NodeLog(n, inputs));
  }

  lemma {:induction false} ReadOff(told: seq<SeqEvent>, log: seq<Output>)
    requires Picked(told, PassedOf) == Picked(log, RaisedBy)
    ensures Picked(told, HandedBy) == Picked(log, DeliveryOf)
  {
    hide Picked;
    forall i | 0 <= i < |told|
      ensures HandedBy(told[i]) == Picked(PassedOf(told[i]), ReceivedIn)
    {
      PickedOne(PassedOf(told[i]), ReceivedIn);
    }
    forall i | 0 <= i < |log|
      ensures DeliveryOf(log[i]) == Picked(RaisedBy(log[i]), ReceivedIn)
    {
      PickedOne(RaisedBy(log[i]), ReceivedIn);
    }
    PickedTwice(told, PassedOf, ReceivedIn, HandedBy);
    PickedTwice(log, RaisedBy, ReceivedIn, DeliveryOf);
  }
}
