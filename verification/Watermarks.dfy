/**
 * The inbound watermark (sequencer.rs:268-278, 403-431, 492-503), by every policy and over whole runs, in
 * terms of what was received, handled and written.
 */
module Watermarks {
  import opened FixMessage
  import opened Session
  import opened Sequencing
  import opened SequencerRuns

  /**
   * What has happened on the way in: the number after the last one received, the messages handed over and
   * not handled, the number after the last one handled or needing no handling, the last watermark written
   * and the one asked for and not yet written.
   */
  datatype Marks = Marks(nextIn: nat, pending: set<nat>, handled: nat, written: nat, outstanding: Option<nat>)

  /** The watermark asked for last, or what was outstanding before. */
  function Outstanding(before: Option<nat>, asked: seq<nat>): Option<nat> {
    if asked == [] then before else Some(asked[|asked| - 1])
  }

  /** What an action brings, and what the application is told of it. */
  function Marked(m: Marks, a: Action, out: seq<SeqEvent>): Marks {
    var told := m.(pending := m.pending + HandedOn(out));
    var done :=
      match a
      case FromSession(MessageReceived(n, _), _) => told.(nextIn := Max(m.nextIn, n + 1))
      case FromSession(InboundAdvanced(n), _) => told.(nextIn := Max(m.nextIn, n), handled := Max(m.handled, n))
      case Finish(n) => told.(pending := told.pending - {n}, handled := Max(m.handled, n + 1))
      case WatermarkDone(n) =>
        told.(written := Max(m.written, n), outstanding := if m.outstanding == Some(n) then None else m.outstanding)
      case _ => told;
    done.(outstanding := Outstanding(done.outstanding, WatermarksAsked(out)))
  }

  ghost function MarksOf(resume: Resume, policy: InboundPolicy, max: nat, actions: seq<Action>): Marks {
    if actions == [] then Marks(resume.nextIn, {}, resume.nextIn, resume.nextIn, None)
    else
      var before := actions[..|actions| - 1];
      var q := AfterActions(InitialSequencer(resume, policy, max), before);
      Marked(MarksOf(resume, policy, max, before), actions[|actions| - 1], Act(q, actions[|actions| - 1]).out)
  }

  /** Where a restart has to begin: where the session is, at the first message not handled, or past the last one that is. */
  ghost predicate Due(policy: InboundPolicy, m: Marks, w: nat) {
    match policy
    case OnDelivery => w == m.nextIn
    case Explicit(Contiguous) => if m.pending == {} then w == m.nextIn else IsLeast(w, m.pending)
    case Explicit(Highest) => w == m.handled
  }

  /** The sequencer's own fields say the same. */
  ghost predicate Agrees(q: SeqView, policy: InboundPolicy, m: Marks) {
    && q.policy == policy
    && q.sessionNextIn == m.nextIn
    && (policy == Explicit(Contiguous) ==> q.unhandled == m.pending)
    && (policy == Explicit(Highest) ==> q.highestHandled == m.handled)
    && q.watermarkPersisted == m.written
    && q.watermarkInFlight == m.outstanding
  }

  /** Nothing is left to ask for: unless a write is outstanding, what is due has been written. */
  ghost predicate UpToDate(policy: InboundPolicy, m: Marks) {
    m.outstanding.None? ==> forall w: nat :: Due(policy, m, w) ==> w <= m.written
  }

  /** What an action asks for is due, is beyond what has been written, and is not asked for while another is outstanding. */
  ghost predicate AsksRightly(policy: InboundPolicy, m: Marks, asked: seq<nat>, outstanding: Option<nat>) {
    asked != [] ==> |asked| == 1 && Due(policy, m, asked[0]) && asked[0] > m.written && outstanding.None?
  }

  lemma {:induction false} AgreedDue(q: SeqView, policy: InboundPolicy, m: Marks)
    requires Agrees(q, policy, m)
    ensures Due(policy, m, Watermark(q))
    ensures forall w: nat :: Due(policy, m, w) ==> w == Watermark(q)
  {
  }

  /** Asking for a watermark when it is worth it, with the marks as they then are. */
  lemma {:induction false} AskFollows(q: SeqView, policy: InboundPolicy, m: Marks)
    requires Agrees(q, policy, m)
    ensures var r := AskForWatermark(q);
            var m1 := m.(outstanding := Outstanding(m.outstanding, WatermarksAsked(r.out)));
            && HandedOn(r.out) == {}
            && Agrees(r.q, policy, m1) && UpToDate(policy, m1)
            && AsksRightly(policy, m1, WatermarksAsked(r.out), m.outstanding)
  {
    AsksOnly(q);
    AgreedDue(q, policy, m);
    var r := AskForWatermark(q);
    if r.out != [] {
      assert r.out[1..] == [];
      assert WatermarksAsked(r.out) == [Watermark(q)];
    }
    var m1 := m.(outstanding := Outstanding(m.outstanding, WatermarksAsked(r.out)));
    assert forall w: nat :: Due(policy, m1, w) <==> Due(policy, m, w);
    hide Due, Watermark, HandedOn, WatermarksAsked;
  }

  /** An action that has nothing to do with it. */
  lemma {:induction false} OthersFollow(q: SeqView, policy: InboundPolicy, m: Marks, q': SeqView, out: seq<SeqEvent>)
    requires Agrees(q, policy, m) && UpToDate(policy, m)
    requires q' == q.(nextOut := q'.nextOut, inFlight := q'.inFlight, ready := q'.ready, loggedOn := q'.loggedOn, failed := q'.failed)
    requires forall i :: 0 <= i < |out| ==> !out[i].PersistWatermark? && !(out[i].Passed? && out[i].event.MessageReceived?)
    ensures HandedOn(out) == {} && WatermarksAsked(out) == [] && Agrees(q', policy, m)
  {
    NoneHandedOn(out);
    NoWatermarkAsked(out);
  }

  lemma {:induction false} DeliveryFollows(q: SeqView, policy: InboundPolicy, m: Marks, n: nat, msg: Message, clock: nat)
    requires Agrees(q, policy, m)
    ensures var a, r := FromSession(MessageReceived(n, msg), clock), OnSessionEvent(q, MessageReceived(n, msg), clock);
            var m1 := Marked(m, a, r.out);
            && Agrees(r.q, policy, m1) && UpToDate(policy, m1)
            && AsksRightly(policy, m1, WatermarksAsked(r.out), m.outstanding)
  {
    var q1, told := NoteDelivered(q, n), Passed(MessageReceived(n, msg));
    var m1 := m.(nextIn := Max(m.nextIn, n + 1), pending := m.pending + {n});
    assert Agrees(q1, policy, m1);
    AskFollows(q1, policy, m1);
    hide Agrees, UpToDate, AsksRightly, AskForWatermark;
    var w := AskForWatermark(q1);
    assert ([told] + w.out)[1..] == w.out;
    assert [] + WatermarksAsked(w.out) == WatermarksAsked(w.out);
    assert HandedOn([told] + w.out) == {n};
  }

  /** Marks moved by the action itself, and then a watermark asked for if that is worth it. */
  lemma {:induction false} MovedThenAsked(q1: SeqView, policy: InboundPolicy, m: Marks, a: Action, m1: Marks)
    requires Agrees(q1, policy, m1)
    requires forall out :: HandedOn(out) == {} ==>
               Marked(m, a, out) == m1.(outstanding := Outstanding(m1.outstanding, WatermarksAsked(out)))
    ensures var r := AskForWatermark(q1);
            var m2 := Marked(m, a, r.out);
            && Agrees(r.q, policy, m2) && UpToDate(policy, m2)
            && AsksRightly(policy, m2, WatermarksAsked(r.out), m1.outstanding)
  {
    hide Agrees, UpToDate, AsksRightly, AskForWatermark, Marked, HandedOn, WatermarksAsked;
    AskFollows(q1, policy, m1);
  }

  /** What was outstanding once the action's own news is taken in. */
  function LeftOutstanding(m: Marks, a: Action): Option<nat> {
    if a.WatermarkDone? && m.outstanding == Some(a.nextIn) then None else m.outstanding
  }

  lemma {:induction false} ActFollows(q: SeqView, policy: InboundPolicy, m: Marks, a: Action)
    requires Agrees(q, policy, m) && UpToDate(policy, m)
    ensures var r := Act(q, a);
            var m1 := Marked(m, a, r.out);
            && Agrees(r.q, policy, m1) && UpToDate(policy, m1)
            && AsksRightly(policy, m1, WatermarksAsked(r.out), LeftOutstanding(m, a))
  {
    hide UpToDate, AsksRightly, AskForWatermark, WatermarksAsked, HandedOn, Written, Assign, SendRaw;
    match a {
      case FromSession(MessageReceived(n, msg), clock) => DeliveryFollows(q, policy, m, n, msg, clock);
      case FromSession(InboundAdvanced(n), clock) =>
        assert m.pending + {} == m.pending;
        MovedThenAsked(NoteAdvanced(q, n), policy, m, a, m.(nextIn := Max(m.nextIn, n), handled := Max(m.handled, n)));
      case Finish(n) =>
        assert m.pending + {} == m.pending;
        MovedThenAsked(HandledNoted(q, n), policy, m, a, m.(pending := m.pending - {n}, handled := Max(m.handled, n + 1)));
      case WatermarkDone(n) =>
        assert m.pending + {} == m.pending;
        MovedThenAsked(q.(watermarkPersisted := Max(q.watermarkPersisted, n),
                          watermarkInFlight := if q.watermarkInFlight == Some(n) then None else q.watermarkInFlight),
                       policy, m, a, m.(written := Max(m.written, n), outstanding := LeftOutstanding(m, a)));
      case _ => RestFollows(q, policy, m, a);
    }
  }

  /** What handling a message changes, before a watermark is asked for. */
  function HandledNoted(q: SeqView, n: nat): SeqView {
    match q.policy
    case OnDelivery => q
    case Explicit(Contiguous) => q.(unhandled := q.unhandled - {n})
    case Explicit(Highest) => q.(highestHandled := Max(q.highestHandled, n + 1))
  }

  predicate Concerns(a: Action) {
    || a.Finish? || a.WatermarkDone?
    || (a.FromSession? && (a.event.MessageReceived? || a.event.InboundAdvanced?))
  }

  lemma {:induction false} RestFollows(q: SeqView, policy: InboundPolicy, m: Marks, a: Action)
    requires Agrees(q, policy, m) && UpToDate(policy, m) && !Concerns(a)
    ensures var r := Act(q, a);
            var m1 := Marked(m, a, r.out);
            && Agrees(r.q, policy, m1) && UpToDate(policy, m1)
            && AsksRightly(policy, m1, WatermarksAsked(r.out), LeftOutstanding(m, a))
  {
    hide UpToDate, AsksRightly, WatermarksAsked, HandedOn, Agrees, AskForWatermark;
    var r := Act(q, a);
    OthersFollow(q, policy, m, r.q, r.out);
    assert m.pending + {} == m.pending;
    NoneAsked(policy, m, m.outstanding);
  }

  lemma {:induction false} NoneAsked(policy: InboundPolicy, m: Marks, outstanding: Option<nat>)
    ensures AsksRightly(policy, m, [], outstanding)
  {
  }

  /**
   * By every policy and at any moment of any run: unless a watermark is being written, the one that is due
   * has been. Due is, on delivery, the number after the last one received; under the contiguous policy the
   * first message handed over and not handled, or the same number if there is none; under the other, the
   * number after the last one handled.
   */
  lemma {:induction false} WatermarkKeepsUp(resume: Resume, policy: InboundPolicy, max: nat, actions: seq<Action>)
    ensures var q, m := InitialSequencer(resume, policy, max), MarksOf(resume, policy, max, actions);
            Agrees(AfterActions(q, actions), policy, m) && UpToDate(policy, m)
  {
    if actions != [] {
      hide Act, Marked, Agrees, UpToDate, AsksRightly;
      var q, before := InitialSequencer(resume, policy, max), actions[..|actions| - 1];
      WatermarkKeepsUp(resume, policy, max, before);
      ActFollows(AfterActions(q, before), policy, MarksOf(resume, policy, max, before), actions[|actions| - 1]);
    }
  }

  /** And each watermark asked for is the one due, is beyond what has been written, and is asked for alone. */
  lemma {:induction false} WatermarkAskedWhenDue(resume: Resume, policy: InboundPolicy, max: nat, actions: seq<Action>, a: Action)
    ensures var q, m := AfterActions(InitialSequencer(resume, policy, max), actions), MarksOf(resume, policy, max, actions);
            var out := Act(q, a).out;
            AsksRightly(policy, Marked(m, a, out), WatermarksAsked(out), LeftOutstanding(m, a))
  {
    hide Act, Marked, Agrees, UpToDate, AsksRightly, AfterActions;
    WatermarkKeepsUp(resume, policy, max, actions);
    ActFollows(AfterActions(InitialSequencer(resume, policy, max), actions), policy, MarksOf(resume, policy, max, actions), a);
  }
}
