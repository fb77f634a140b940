/** The parts of a FIX message the session layer reads and writes. */
module FixMessage {

  datatype Option<+T> = None | Some(value: T)

  function Max(a: nat, b: nat): nat {
    if a < b then b else a
  }

  /** The session-level types by name; every other type is an application message. */
  datatype MsgType =
    | Heartbeat
    | TestRequest
    | ResendRequest
    | Reject
    | SequenceReset
    | Logout
    | Logon
    | XmlNonFix
    | Application(name: string)

  /** `TestReqID`s the session makes up (`HELO-n`, `HBn`), and anybody else's. */
  datatype TestReqId = Helo(n: nat) | Hb(n: nat) | Other(text: string)

  /**
   * A message, as far as sessions are concerned. A field that is `None` is absent or cannot be
   * read as its type: the session treats the two alike wherever it looks.
   */
  datatype Message = Message(
    msgType: MsgType,
    seqNum: Option<nat>,
    possDup: bool,
    sendingTime: Option<nat>,
    origSendingTime: Option<nat>,
    testReqId: Option<TestReqId>,
    beginSeqNo: Option<nat>,
    endSeqNo: Option<nat>,
    gapFillFlag: Option<bool>,
    newSeqNo: Option<nat>,
    heartBtInt: Option<nat>,
    text: string)
  {
    predicate IsAdmin() {
      !msgType.Application?
    }

    /** What a replay covers by a gap fill instead of sending: the session level, but for two types. */
    predicate GapFilledInReplay() {
      IsAdmin() && !msgType.Reject? && !msgType.XmlNonFix?
    }
  }

  /** A message with nothing but a type. */
  function Blank(msgType: MsgType): Message {
    Message(msgType, None, false, None, None, None, None, None, None, None, None, "")
  }

  ghost predicate StrictlyIncreasing(s: seq<nat>) {
    forall i, j :: 0 <= i < j < |s| ==> s[i] < s[j]
  }
}
