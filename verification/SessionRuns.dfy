/** Whole runs of a session: any inputs, in any order, whatever each call returns. */
module SessionRuns {
  import opened FixMessage
  import opened Replaying
  import opened Session

  datatype Input =
    | Receive(msg: Message, now: nat)
    | Apply(cmd: Command, now: nat)
    | Tick(now: nat)
    | AskLogon
    | PeerLogon(logon: Message, now: nat)
    | PeerClosed

  function StepOf(s: SessionView, input: Input): (r: Step)
    requires s.WellFormed()
    ensures r.s.WellFormed()
  {
    match input
    case Receive(msg, now) => OnMessage(s, msg, now)
    case Apply(cmd, now) => OnCommand(s, cmd, now)
    case Tick(now) => OnTimeout(s, now)
    case AskLogon => RequestLogon(s)
    case PeerLogon(logon, now) => Start(s, logon, now)
    case PeerClosed => Step(s, [Raise(Disconnected)], Close)
  }

  /** The state after the inputs. */
  function After(s: SessionView, inputs: seq<Input>): (r: SessionView)
    requires s.WellFormed()
    ensures r.WellFormed()
  {
    if inputs == [] then s
    else StepOf(After(s, inputs[..|inputs| - 1]), inputs[|inputs| - 1]).s
  }

  /** Everything emitted, in order. */
  function Log(s: SessionView, inputs: seq<Input>): seq<Output>
    requires s.WellFormed()
  {
    if inputs == [] then []
    else
      var before := inputs[..|inputs| - 1];
      Log(s, before) + StepOf(After(s, before), inputs[|inputs| - 1]).out
  }

  /** No call of the run ended the session. */
  predicate NeverCloses(s: SessionView, inputs: seq<Input>)
    requires s.WellFormed()
  {
    inputs != [] ==>
      var before := inputs[..|inputs| - 1];
      NeverCloses(s, before) && StepOf(After(s, before), inputs[|inputs| - 1]).outcome != Close
  }
}
