/**
 * The sequencer (sequencer.rs). Outbound: a number, a write, and on its completion, in order, a
 * release. Inbound: what was delivered, what was handled, and the watermark that follows from both.
 */
module Sequencing {
  import opened FixMessage
  import opened Session

  datatype WatermarkMode = Contiguous | Highest

  datatype InboundPolicy = OnDelivery | Explicit(mode: WatermarkMode)

  /** Where the store left off. */
  datatype Resume = Resume(nextOut: nat, nextIn: nat)

  datatype SeqEvent =
    | PersistOutbound(seqNum: nat, msg: Message)
    | PersistWatermark(nextIn: nat)
    | Passed(event: Event)

  datatype InFlight = InFlight(seqNum: nat, msg: Message, persisted: bool)

  datatype SeqView = SeqView(
    nextOut: nat,
    maxInFlight: nat,
    inFlight: seq<InFlight>,
    ready: seq<Message>,
    loggedOn: bool,
    failed: bool,
    policy: InboundPolicy,
    sessionNextIn: nat,
    unhandled: set<nat>,
    highestHandled: nat,
    watermarkPersisted: nat,
    watermarkInFlight: Option<nat>)

  /** The state a call leaves, what it asks of or tells the application, and whether it succeeded. */
  datatype SeqStep = SeqStep(q: SeqView, out: seq<SeqEvent>, ok: bool)

  function InitialSequencer(resume: Resume, policy: InboundPolicy, maxInFlight: nat): SeqView {
    SeqView(resume.nextOut, maxInFlight, [], [], false, false, policy, resume.nextIn, {},
            resume.nextIn, resume.nextIn, None)
  }

  // ---------------------------------------------------------------------
  // Outbound
  // ---------------------------------------------------------------------

  /** A message with a sending time: its own, or else the clock's. */
  function Stamp(msg: Message, clock: nat): Message {
    if msg.sendingTime.Some? then msg else msg.(sendingTime := Some(clock))
  }

  function RequestWrite(q: SeqView, n: nat, msg: Message): SeqStep {
    SeqStep(q.(inFlight := q.inFlight + [InFlight(n, msg, false)]), [PersistOutbound(n, msg)], true)
  }

  function Assign(q: SeqView, msg: Message, clock: nat): (r: SeqStep)
    ensures r.ok == !q.failed
    ensures r.q.ready == q.ready && r.q.loggedOn == q.loggedOn && r.q.failed == q.failed
  {
    if q.failed then SeqStep(q, [], false)
    else
      RequestWrite(q.(nextOut := q.nextOut + 1), q.nextOut, Stamp(msg.(seqNum := Some(q.nextOut)), clock))
  }

  function SendNew(q: SeqView, msg: Message, clock: nat): SeqStep {
    if |q.inFlight| >= q.maxInFlight then SeqStep(q, [], false)
    else Assign(q, msg.(possDup := false, origSendingTime := None), clock)
  }

  function SendRaw(q: SeqView, msg: Message, clock: nat): SeqStep {
    if q.failed || msg.seqNum.None? || msg.seqNum.value < q.nextOut then SeqStep(q, [], false)
    else
      var n := msg.seqNum.value;
      RequestWrite(q.(nextOut := n + 1), n, Stamp(msg, clock))
  }

  /** The first write in flight under this number, if there is one. */
  function Find(inFlight: seq<InFlight>, n: nat): (i: nat)
    ensures i <= |inFlight|
    ensures i < |inFlight| ==> inFlight[i].seqNum == n
    ensures forall j :: 0 <= j < i ==> inFlight[j].seqNum != n
  {
    if inFlight == [] || inFlight[0].seqNum == n then 0 else 1 + Find(inFlight[1..], n)
  }

  /** How many writes have completed at the front. */
  function DoneCount(inFlight: seq<InFlight>): (k: nat)
    ensures k <= |inFlight|
    ensures forall j :: 0 <= j < k ==> inFlight[j].persisted
    ensures k < |inFlight| ==> !inFlight[k].persisted
  {
    if inFlight == [] || !inFlight[0].persisted then 0 else 1 + DoneCount(inFlight[1..])
  }

  function Messages(inFlight: seq<InFlight>): (msgs: seq<Message>)
    ensures |msgs| == |inFlight|
    ensures forall i :: 0 <= i < |msgs| ==> msgs[i] == inFlight[i].msg
  {
    if inFlight == [] then [] else [inFlight[0].msg] + Messages(inFlight[1..])
  }

  /** The completion of a write; every message with none outstanding before it moves to `ready`. */
  function Written(q: SeqView, n: nat): (r: SeqStep)
    ensures r.ok ==> r.q == q.(inFlight := r.q.inFlight, ready := r.q.ready)
    ensures !r.ok ==> r.q == q
  {
    var i := Find(q.inFlight, n);
    if q.failed || i == |q.inFlight| then SeqStep(q, [], false)
    else
      var marked := q.inFlight[i := q.inFlight[i].(persisted := true)];
      var k := DoneCount(marked);
      SeqStep(q.(inFlight := marked[k..], ready := q.ready + Messages(marked[..k])), [], true)
  }

  /** Whether a persisted message may go out: anything once logged on, and only a Logon before that. */
  predicate CanPop(q: SeqView) {
    q.ready != [] && (q.loggedOn || q.ready[0].msgType.Logon?)
  }

  // ---------------------------------------------------------------------
  // Inbound
  // ---------------------------------------------------------------------

  ghost predicate IsLeast(m: nat, s: set<nat>) {
    m in s && forall k :: k in s ==> m <= k
  }

  lemma {:induction false} LeastExists(s: set<nat>)
    requires s != {}
    ensures exists m :: IsLeast(m, s)
    decreases |s|
  {
    var x :| x in s;
    var rest := s - {x};
    assert s == rest + {x};
    if rest == {} {
      assert IsLeast(x, s);
    } else {
      LeastExists(rest);
      var m :| IsLeast(m, rest);
      assert IsLeast(if m < x then m else x, s);
    }
  }

  ghost function Least(s: set<nat>): (m: nat)
    requires s != {}
    ensures IsLeast(m, s)
  {
    LeastExists(s);
    var m :| IsLeast(m, s);
    m
  }

  /** The number a restart would begin at, by policy. */
  ghost function Watermark(q: SeqView): nat {
    match q.policy
    case OnDelivery => q.sessionNextIn
    case Explicit(Contiguous) => if q.unhandled == {} then q.sessionNextIn else Least(q.unhandled)
    case Explicit(Highest) => q.highestHandled
  }

  ghost function AskForWatermark(q: SeqView): (r: SeqStep)
    ensures r.q == q.(watermarkInFlight := r.q.watermarkInFlight) && r.ok
  {
    var w := Watermark(q);
    if w > q.watermarkPersisted && q.watermarkInFlight.None?
    then SeqStep(q.(watermarkInFlight := Some(w)), [PersistWatermark(w)], true)
    else SeqStep(q, [], true)
  }

  ghost function Handled(q: SeqView, n: nat): SeqStep {
    AskForWatermark(
      match q.policy
      case OnDelivery => q
      case Explicit(Contiguous) => q.(unhandled := q.unhandled - {n})
      case Explicit(Highest) => q.(highestHandled := Max(q.highestHandled, n + 1)))
  }

  ghost function WatermarkWritten(q: SeqView, nextIn: nat): SeqStep {
    AskForWatermark(q.(
      watermarkPersisted := Max(q.watermarkPersisted, nextIn),
      watermarkInFlight := if q.watermarkInFlight == Some(nextIn) then None else q.watermarkInFlight))
  }

  /** A message was delivered: it is unhandled until the application says otherwise. */
  function NoteDelivered(q: SeqView, n: nat): SeqView {
    q.(sessionNextIn := Max(q.sessionNextIn, n + 1),
       unhandled := if q.policy == Explicit(Contiguous) then q.unhandled + {n} else q.unhandled)
  }

  /** The count moved without a delivery. */
  function NoteAdvanced(q: SeqView, nextIn: nat): SeqView {
    q.(sessionNextIn := Max(q.sessionNextIn, nextIn),
       highestHandled := if q.policy == Explicit(Highest) then Max(q.highestHandled, nextIn) else q.highestHandled)
  }

  /** An event intercepted: absorbed, or passed on with what it entails. */
  ghost function OnSessionEvent(q: SeqView, event: Event, clock: nat): (r: SeqStep)
    ensures r.q.ready == q.ready && r.q.failed == q.failed
  {
    match event
    case AdminSendRequired(msg) => Assign(q, msg, clock)
    case LoggedOn => SeqStep(q.(loggedOn := true), [Passed(event)], true)
    case MessageReceived(n, msg) =>
      var w := AskForWatermark(NoteDelivered(q, n));
      SeqStep(w.q, [Passed(event)] + w.out, true)
    case InboundAdvanced(nextIn) => AskForWatermark(NoteAdvanced(q, nextIn))
    case _ => SeqStep(q, [Passed(event)], true)
  }

  /** Everything a session call emitted, passed through in order, up to the first refusal. */
  ghost function PassOn(q: SeqView, log: seq<Output>, clock: nat): (r: SeqStep)
    ensures r.q.ready == q.ready && r.q.failed == q.failed
    decreases |log|
  {
    if log == [] then SeqStep(q, [], true)
    else if log[0].Transmit? then PassOn(q, log[1..], clock)
    else
      var first := OnSessionEvent(q, log[0].event, clock);
      if !first.ok then first
      else
        var rest := PassOn(first.q, log[1..], clock);
        SeqStep(rest.q, first.out + rest.out, rest.ok)
  }

  /** A session and its sequencer after a call on both. */
  datatype NodeStep = NodeStep(q: SeqView, s: SessionView, wire: seq<Output>, out: seq<SeqEvent>, outcome: Outcome)

  /** Hand the first ready message to the session, and take in what that leads to. */
  ghost function HandOver(q: SeqView, s: SessionView, now: nat, clock: nat): (r: NodeStep)
    requires s.WellFormed() && CanPop(q)
    ensures r.s.WellFormed() && |r.q.ready| < |q.ready|
  {
    var st := OnCommand(s, Send(q.ready[0]), now);
    var a := PassOn(q.(ready := q.ready[1..]), st.out, clock);
    NodeStep(a.q, st.s, st.out, a.out, if a.ok then st.outcome else Fail)
  }

  /** Ready messages handed over, first to last, until one may not go or ends the session. */
  ghost function Released(q: SeqView, s: SessionView, now: nat, clock: nat): NodeStep
    requires s.WellFormed()
    decreases |q.ready|
  {
    if !CanPop(q) then NodeStep(q, s, [], [], Continue)
    else
      var one := HandOver(q, s, now, clock);
      if one.outcome != Continue then one
      else
        var rest := Released(one.q, one.s, now, clock);
        NodeStep(rest.q, rest.s, one.wire + rest.wire, one.out + rest.out, rest.outcome)
  }

  // ---------------------------------------------------------------------
  // The machine
  // ---------------------------------------------------------------------

  /** Collects what the application is told. */
  class SeqSink {
    ghost var log: seq<SeqEvent>

    constructor ()
      ensures log == []
    {
      log := [];
    }

    method Event(event: SeqEvent)
      modifies this
      ensures log == old(log) + [event]
    {
      log := log + [event];
    }
  }

  method LeastOf(s: set<nat>) returns (m: nat)
    requires s != {}
    ensures m == Least(s)
  {
    m :| m in s;
    var rest := s - {m};
    while rest != {}
      invariant rest <= s
      invariant m in s
      invariant forall k :: k in s && k !in rest ==> m <= k
      decreases rest
    {
      var x :| x in rest;
      if x < m {
        m := x;
      }
      rest := rest - {x};
    }
  }

  class Sequencer {
    const maxInFlight: nat
    const policy: InboundPolicy
    var nextOut: nat
    var inFlight: seq<InFlight>
    var ready: seq<Message>
    var loggedOn: bool
    var failed: bool
    var sessionNextIn: nat
    var unhandled: set<nat>
    var highestHandled: nat
    var watermarkPersisted: nat
    var watermarkInFlight: Option<nat>

    ghost function View(): SeqView
      reads this
    {
      SeqView(nextOut, maxInFlight, inFlight, ready, loggedOn, failed, policy, sessionNextIn,
              unhandled, highestHandled, watermarkPersisted, watermarkInFlight)
    }

    ghost predicate Reached(step: SeqStep, before: seq<SeqEvent>, app: SeqSink, ok: bool)
      reads this, app
    {
      View() == step.q && app.log == before + step.out && ok == step.ok
    }

    constructor (resume: Resume, policy: InboundPolicy, maxInFlight: nat)
      ensures View() == InitialSequencer(resume, policy, maxInFlight)
    {
      this.policy, this.maxInFlight := policy, maxInFlight;
      nextOut, inFlight, ready := resume.nextOut, [], [];
      loggedOn, failed := false, false;
      sessionNextIn, unhandled := resume.nextIn, {};
      highestHandled, watermarkPersisted, watermarkInFlight := resume.nextIn, resume.nextIn, None;
    }

    method AskForWrite(n: nat, msg: Message, app: SeqSink)
      modifies this`inFlight, app
      ensures Reached(RequestWrite(old(View()), n, msg), old(app.log), app, true)
    {
      inFlight := inFlight + [InFlight(n, msg, false)];
      app.Event(PersistOutbound(n, msg));
    }

    method AssignNumber(msg: Message, clock: nat, app: SeqSink) returns (ok: bool)
      modifies this`inFlight, this`nextOut, app
      ensures Reached(Assign(old(View()), msg, clock), old(app.log), app, ok)
    {
      if failed {
        return false;
      }
      var n := nextOut;
      nextOut := nextOut + 1;
      AskForWrite(n, Stamp(msg.(seqNum := Some(n)), clock), app);
      return true;
    }

    /** `SendNew`, on the fields. */
    method SendMessage(msg: Message, clock: nat, app: SeqSink) returns (ok: bool)
      modifies this`inFlight, this`nextOut, app
      ensures Reached(SendNew(old(View()), msg, clock), old(app.log), app, ok)
    {
      if |inFlight| >= maxInFlight {
        return false;
      }
      ok := AssignNumber(msg.(possDup := false, origSendingTime := None), clock, app);
    }

    /** `SendRaw`, on the fields. */
    method SendExactly(msg: Message, clock: nat, app: SeqSink) returns (ok: bool)
      modifies this`inFlight, this`nextOut, app
      ensures Reached(SendRaw(old(View()), msg, clock), old(app.log), app, ok)
    {
      if failed {
        return false;
      }
      if msg.seqNum.None? {
        return false;
      }
      var n := msg.seqNum.value;
      if n < nextOut {
        return false;
      }
      nextOut := n + 1;
      AskForWrite(n, Stamp(msg, clock), app);
      return true;
    }

    method FindWrite(n: nat) returns (i: nat)
      ensures i == Find(inFlight, n)
    {
      i := 0;
      while i < |inFlight| && inFlight[i].seqNum != n
        invariant i <= |inFlight|
        invariant forall j :: 0 <= j < i ==> inFlight[j].seqNum != n
      {
        i := i + 1;
      }
    }

    /** Move what is persisted at the front to `ready`. */
    method DrainWritten()
      modifies this`inFlight, this`ready
      ensures inFlight == old(inFlight)[DoneCount(old(inFlight))..]
      ensures ready == old(ready) + Messages(old(inFlight)[..DoneCount(old(inFlight))])
    {
      ghost var was := inFlight;
      ghost var k := 0;
      assert was[0..] == was;
      while inFlight != [] && inFlight[0].persisted
        invariant k <= |was| && inFlight == was[k..]
        invariant forall j :: 0 <= j < k ==> was[j].persisted
        invariant ready == old(ready) + Messages(was[..k])
        decreases |inFlight|
      {
        MessagesSnoc(was, k);
        ready := ready + [inFlight[0].msg];
        inFlight := inFlight[1..];
        k := k + 1;
      }
      assert k == DoneCount(was);
    }

    /** `Written`, on the fields. */
    method MarkWritten(n: nat) returns (ok: bool)
      modifies this`inFlight, this`ready
      ensures View() == Written(old(View()), n).q && ok == Written(old(View()), n).ok
    {
      hide Find, DoneCount, Messages;
      if failed {
        return false;
      }
      var i := FindWrite(n);
      if i == |inFlight| {
        return false;
      }
      inFlight := inFlight[i := inFlight[i].(persisted := true)];
      DrainWritten();
      return true;
    }

    /** Hand over the first ready message, if it may go. */
    method ReleaseOne(now: nat, clock: nat, target: SessionState, app: SeqSink) returns (outcome: Option<Outcome>)
      requires target.Valid()
      modifies this, target, target.replay, app
      ensures target.Valid() && (target.replay == old(target.replay) || target.replay == null)
      ensures outcome.Some? <==> CanPop(old(View()))
      ensures outcome.None? ==> View() == old(View()) && target.View() == old(target.View()) && app.log == old(app.log)
      ensures outcome.Some? ==>
                var r := HandOver(old(View()), old(target.View()), now, clock);
                && View() == r.q && target.View() == r.s
                && app.log == old(app.log) + r.out && outcome.value == r.outcome
    {
      hide OnCommand, PassOn;
      var msg := PopReady();
      if msg.None? {
        return None;
      }
      ghost var st := OnCommand(target.View(), Send(msg.value), now);
      var out := new SessionOutput();
      var sent := target.Command(Send(msg.value), now, out);
      assert out.log == st.out;
      var ok := InterceptAll(out.log, clock, app);
      return Some(if ok then sent else Fail);
    }

    /** `Released`, message by message. */
    method Release(now: nat, clock: nat, target: SessionState, app: SeqSink) returns (outcome: Outcome)
      requires target.Valid()
      modifies this, target, target.replay, app
      ensures target.Valid()
      ensures var r := Released(old(View()), old(target.View()), now, clock);
              && View() == r.q && target.View() == r.s
              && app.log == old(app.log) + r.out && outcome == r.outcome
    {
      hide Released, HandOver;
      ghost var all := Released(View(), target.View(), now, clock);
      ghost var done: seq<SeqEvent> := [];
      while true
        invariant target.Valid() && (target.replay == old(target.replay) || target.replay == null)
        invariant app.log == old(app.log) + done
        invariant all.q == Released(View(), target.View(), now, clock).q
        invariant all.s == Released(View(), target.View(), now, clock).s
        invariant all.outcome == Released(View(), target.View(), now, clock).outcome
        invariant all.out == done + Released(View(), target.View(), now, clock).out
        decreases |ready|
      {
        ReleasedUnfolds(View(), target.View(), now, clock);
        ghost var q, s := View(), target.View();
        var one := ReleaseOne(now, clock, target, app);
        if one.None? {
          return Continue;
        }
        done := done + HandOver(q, s, now, clock).out;
        if one.value != Continue {
          return one.value;
        }
      }
    }

    /** `Written`, and then `Released`. */
    method Persisted(n: nat, now: nat, clock: nat, target: SessionState, app: SeqSink) returns (outcome: Outcome)
      requires target.Valid()
      modifies this, target, target.replay, app
      ensures target.Valid()
      ensures var w := Written(old(View()), n);
              var r := Released(w.q, old(target.View()), now, clock);
              if w.ok then
                View() == r.q && target.View() == r.s && app.log == old(app.log) + r.out && outcome == r.outcome
              else
                View() == old(View()) && target.View() == old(target.View()) && app.log == old(app.log) && outcome == Fail
    {
      hide Released, Written;
      WrittenOrNot(View(), n);
      var ok := MarkWritten(n);
      if !ok {
        return Fail;
      }
      outcome := Release(now, clock, target, app);
    }

    method PopReady() returns (msg: Option<Message>)
      modifies this`ready
      ensures msg.Some? <==> CanPop(old(View()))
      ensures msg.Some? ==> msg.value == old(ready)[0] && ready == old(ready)[1..]
      ensures msg.None? ==> ready == old(ready)
    {
      if ready == [] || (!loggedOn && !ready[0].msgType.Logon?) {
        return None;
      }
      msg := Some(ready[0]);
      ready := ready[1..];
    }

    method Resumption() returns (w: nat)
      ensures w == Watermark(View())
    {
      match policy {
        case OnDelivery => w := sessionNextIn;
        case Explicit(Contiguous) =>
          if unhandled == {} {
            w := sessionNextIn;
          } else {
            w := LeastOf(unhandled);
          }
        case Explicit(Highest) => w := highestHandled;
      }
    }

    method AskToPersistWatermark(app: SeqSink)
      modifies this`watermarkInFlight, app
      ensures Reached(AskForWatermark(old(View())), old(app.log), app, true)
    {
      var w := Resumption();
      if w > watermarkPersisted && watermarkInFlight.None? {
        watermarkInFlight := Some(w);
        app.Event(PersistWatermark(w));
      }
    }

    /** `Handled`, on the fields. */
    method NoteHandled(n: nat, app: SeqSink)
      modifies this, app
      ensures Reached(Handled(old(View()), n), old(app.log), app, true)
    {
      match policy {
        case OnDelivery =>
        case Explicit(Contiguous) => unhandled := unhandled - {n};
        case Explicit(Highest) => highestHandled := Max(highestHandled, n + 1);
      }
      AskToPersistWatermark(app);
    }

    /** The watermark write of `nextIn` has completed. */
    method NoteWatermarkWritten(nextIn: nat, app: SeqSink)
      modifies this, app
      ensures Reached(WatermarkWritten(old(View()), nextIn), old(app.log), app, true)
    {
      watermarkPersisted := Max(watermarkPersisted, nextIn);
      if watermarkInFlight == Some(nextIn) {
        watermarkInFlight := None;
      }
      AskToPersistWatermark(app);
    }

    method Deliver(n: nat, msg: Message, app: SeqSink)
      modifies this, app
      ensures Reached(OnSessionEvent(old(View()), MessageReceived(n, msg), 0), old(app.log), app, true)
    {
      sessionNextIn := Max(sessionNextIn, n + 1);
      if policy == Explicit(Contiguous) {
        unhandled := unhandled + {n};
      }
      assert View() == NoteDelivered(old(View()), n);
      app.Event(Passed(MessageReceived(n, msg)));
      AskToPersistWatermark(app);
    }

    method MoveOn(nextIn: nat, app: SeqSink)
      modifies this, app
      ensures Reached(AskForWatermark(NoteAdvanced(old(View()), nextIn)), old(app.log), app, true)
    {
      sessionNextIn := Max(sessionNextIn, nextIn);
      if policy == Explicit(Highest) {
        highestHandled := Max(highestHandled, nextIn);
      }
      AskToPersistWatermark(app);
    }

    /** `OnSessionEvent`, on the fields. */
    method Intercept(event: Event, clock: nat, app: SeqSink) returns (ok: bool)
      modifies this, app
      ensures Reached(OnSessionEvent(old(View()), event, clock), old(app.log), app, ok)
    {
      hide Assign, AskForWatermark, NoteAdvanced, NoteDelivered;
      match event {
        case AdminSendRequired(msg) =>
          ok := AssignNumber(msg, clock, app);
          return;
        case LoggedOn =>
          loggedOn := true;
          app.Event(Passed(event));
        case MessageReceived(n, msg) =>
          Deliver(n, msg, app);
        case InboundAdvanced(nextIn) =>
          MoveOn(nextIn, app);
        case _ =>
          app.Event(Passed(event));
      }
      return true;
    }

    /** Pass on everything a session call emitted, up to the first refusal. */
    method InterceptAll(log: seq<Output>, clock: nat, app: SeqSink) returns (ok: bool)
      modifies this, app
      ensures Reached(PassOn(old(View()), log, clock), old(app.log), app, ok)
    {
      hide OnSessionEvent, PassOn;
      ghost var all := PassOn(View(), log, clock);
      ghost var done: seq<SeqEvent> := [];
      var i := 0;
      assert log[0..] == log;
      while i < |log|
        invariant 0 <= i <= |log|
        invariant app.log == old(app.log) + done
        invariant PassOn(View(), log[i..], clock).q == all.q
        invariant all.out == done + PassOn(View(), log[i..], clock).out
        invariant PassOn(View(), log[i..], clock).ok == all.ok
      {
        PassOnUnfolds(View(), log, i, clock);
        if log[i].Raise? {
          ghost var first := OnSessionEvent(View(), log[i].event, clock);
          ok := Intercept(log[i].event, clock, app);
          done := done + first.out;
          if !ok {
            return;
          }
        }
        i := i + 1;
      }
      assert log[i..] == [];
      PassOnNothing(View(), clock);
      return true;
    }
  }

  lemma {:induction false} MessagesSnoc(inFlight: seq<InFlight>, k: nat)
    requires k < |inFlight|
    ensures Messages(inFlight[..k + 1]) == Messages(inFlight[..k]) + [inFlight[k].msg]
  {
  }

  lemma {:induction false} WrittenOrNot(q: SeqView, n: nat)
    ensures !Written(q, n).ok ==> Written(q, n).q == q
  {
  }

  lemma {:induction false} ReleasedUnfolds(q: SeqView, s: SessionView, now: nat, clock: nat)
    requires s.WellFormed()
    ensures !CanPop(q) ==> Released(q, s, now, clock) == NodeStep(q, s, [], [], Continue)
    ensures CanPop(q) ==>
              var one := HandOver(q, s, now, clock);
              var rest := Released(one.q, one.s, now, clock);
              Released(q, s, now, clock)
              == if one.outcome != Continue then one
                 else NodeStep(rest.q, rest.s, one.wire + rest.wire, one.out + rest.out, rest.outcome)
  {
    hide HandOver;
  }

  lemma {:induction false} PassOnNothing(q: SeqView, clock: nat)
    ensures PassOn(q, [], clock) == SeqStep(q, [], true)
  {
  }

  lemma {:induction false} PassOnUnfolds(q: SeqView, log: seq<Output>, i: nat, clock: nat)
    requires i < |log|
    ensures log[i].Transmit? ==> PassOn(q, log[i..], clock) == PassOn(q, log[i + 1..], clock)
    ensures log[i].Raise? ==>
              var first := OnSessionEvent(q, log[i].event, clock);
              var rest := PassOn(first.q, log[i + 1..], clock);
              PassOn(q, log[i..], clock)
              == if !first.ok then first else SeqStep(rest.q, first.out + rest.out, rest.ok)
  {
    hide OnSessionEvent;
    assert log[i..][1..] == log[i + 1..];
  }
}
