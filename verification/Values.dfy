/**
 * What is read after what was written: a field that was set reads as its value, one that was removed
 * is gone, and every other tag of the block reads as it did (message/edit.rs, message/view.rs).
 */
module Values {
  import opened Tape
  import opened Document
  import opened Editing
  import opened Lookup
  import opened Numerals
  import opened Storage
  import opened Messages

  /** The entry a lookup of a tag gives. */
  function Reading(ns: seq<Node>, tag: nat): Option<Entry> {
    var k := First(ns, HasTag(tag));
    if k < |ns| then Some(ns[k].entry) else None
  }

  /** No node has the tag. */
  predicate Lacks(ns: seq<Node>, tag: nat) {
    forall i :: 0 <= i < |ns| ==> !Passes(HasTag(tag), ns[i])
  }

  lemma {:induction false} ReadingAppend(a: seq<Node>, b: seq<Node>, tag: nat)
    ensures Reading(a + b, tag) == if Reading(a, tag).Some? then Reading(a, tag) else Reading(b, tag)
    decreases |a|
  {
    hide HasTag;
    if a == [] {
      assert a + b == b;
    } else {
      assert (a + b)[1..] == a[1..] + b && (a + b)[0] == a[0];
      ReadingAppend(a[1..], b, tag);
    }
  }

  lemma {:induction false} LacksReads(ns: seq<Node>, tag: nat)
    requires Lacks(ns, tag)
    ensures Reading(ns, tag) == None
  {
    hide HasTag;
    var k := First(ns, HasTag(tag));
    assert k < |ns| ==> Passes(HasTag(tag), ns[k]);
  }

  lemma {:induction false} LacksAppend(a: seq<Node>, b: seq<Node>, tag: nat)
    requires Lacks(a, tag) && Lacks(b, tag)
    ensures Lacks(a + b, tag)
  {
  }

  /** A tag that neither what goes out nor what comes in has reads as before. */
  lemma {:induction false} ReadingExchanged(block: seq<Node>, i: nat, j: nat, cs: seq<Node>, tag: nat)
    requires i <= j <= |block| && Lacks(block[i..j], tag) && Lacks(cs, tag)
    ensures Reading(Exchanged(block, i, j, cs), tag) == Reading(block, tag)
  {
    hide Reading;
    assert block == block[..i] + block[i..j] + block[j..];
    ReadingAppend(block[..i] + block[i..j], block[j..], tag);
    ReadingAppend(block[..i], block[i..j], tag);
    ReadingAppend(block[..i] + cs, block[j..], tag);
    ReadingAppend(block[..i], cs, tag);
    LacksReads(block[i..j], tag);
    LacksReads(cs, tag);
  }

  /** What comes in is what reads, if nothing before it has the tag. */
  lemma {:induction false} ReadingNew(block: seq<Node>, i: nat, j: nat, cs: seq<Node>, tag: nat)
    requires i <= j <= |block| && Lacks(block[..i], tag) && Reading(cs, tag).Some?
    ensures Reading(Exchanged(block, i, j, cs), tag) == Reading(cs, tag)
  {
    hide Reading;
    ReadingAppend(block[..i] + cs, block[j..], tag);
    ReadingAppend(block[..i], cs, tag);
    LacksReads(block[..i], tag);
  }

  lemma {:induction false} BeforeFirst(block: seq<Node>, tag: nat, i: nat)
    requires i <= First(block, HasTag(tag))
    ensures i <= |block| && Lacks(block[..i], tag)
  {
    hide HasTag;
    assert First(block, HasTag(tag)) <= |block|;
  }

  lemma {:induction false} LeavesReading(entries: seq<Entry>)
    requires FieldOrPair(entries) && (|entries| == 2 ==> entries[0].tag != entries[1].tag)
    ensures Reading(Leaves(entries), entries[|entries| - 1].tag) == Some(entries[|entries| - 1])
  {
    var ns, tag := Leaves(entries), entries[|entries| - 1].tag;
    if |entries| == 1 {
      assert ns == [Node(entries[0], [])];
    } else {
      assert ns == [Node(entries[0], [])] + [Node(entries[1], [])];
      assert Lacks([Node(entries[0], [])], tag);
      LacksReads([Node(entries[0], [])], tag);
      ReadingAppend([Node(entries[0], [])], [Node(entries[1], [])], tag);
    }
  }

  lemma {:induction false} LeavesLack(entries: seq<Entry>, tag: nat)
    requires forall i :: 0 <= i < |entries| ==> entries[i].tag != tag
    ensures Lacks(Leaves(entries), tag)
  {
  }

  /** A block after nodes go in before the `k`th, in the gap's place where they fit there. */
  lemma {:induction false} InsertedBlock(doc: Doc, r: Region, p: Path, k: nat, cs: seq<Node>)
    returns (j: nat, rest: seq<Node>)
    requires IsBlock(doc, r, p) && k <= |Block(Part(doc, r), p)|
    ensures k <= j <= |Block(Part(doc, r), p)|
    ensures IsBlock(InsertedNodes(doc, r, p, k, cs), r, p)
    ensures Block(Part(InsertedNodes(doc, r, p, k, cs), r), p) == Exchanged(Block(Part(doc, r), p), k, j, cs + rest)
    ensures forall t :: Lacks(Block(Part(doc, r), p)[k..j], t) && Lacks(rest, t)
  {
    hide NodeSize, Size;
    if FitsGap(doc, r, p, k, cs) {
      j, rest := k + 1, Remaining(NodeSize(doc.header[k]), Size(cs));
      EditedStays(doc, r, p, k, k + 1, cs + rest);
    } else {
      j, rest := k, [];
      assert cs + rest == cs;
      EditedStays(doc, r, p, k, k, cs);
    }
  }

  /** What was put reads as it was put. */
  lemma {:induction false} PutReads(doc: Doc, r: Region, p: Path, members: Option<Members>, entries: seq<Entry>)
    requires IsBlock(doc, r, p) && FieldOrPair(entries) && KindsAgree(Block(Part(doc, r), p), entries)
    requires |entries| == 2 ==> entries[0].tag != entries[1].tag
    ensures var doc' := Put(doc, r, p, members, entries);
            && IsBlock(doc', r, p)
            && Reading(Block(Part(doc', r), p), entries[|entries| - 1].tag) == Some(entries[|entries| - 1])
  {
    hide Part, Block, Edited, First, HasTag, Reading, InsertedNodes;
    var block, tag := Block(Part(doc, r), p), entries[|entries| - 1].tag;
    var k := First(block, HasTag(tag));
    FirstBound(block, tag);
    LeavesReading(entries);
    if k < |block| {
      var i := k + 1 - |entries|;
      EditedStays(doc, r, p, i, k + 1, Leaves(entries));
      BeforeFirst(block, tag, i);
      ReadingNew(block, i, k + 1, Leaves(entries), tag);
    } else {
      var at := Position(block, r == Header && p == [], members, entries[0].tag);
      var j, rest := InsertedBlock(doc, r, p, at, Leaves(entries));
      BeforeFirst(block, tag, at);
      ReadingAppend(Leaves(entries), rest, tag);
      ReadingNew(block, at, j, Leaves(entries) + rest, tag);
    }
  }

  lemma {:induction false} FirstBound(block: seq<Node>, tag: nat)
    ensures First(block, HasTag(tag)) <= |block|
  {
  }

  /** Every other tag reads as it did. */
  lemma {:induction false} PutLeavesOthers(doc: Doc, r: Region, p: Path, members: Option<Members>, entries: seq<Entry>,
                                           t: nat)
    requires IsBlock(doc, r, p) && FieldOrPair(entries) && KindsAgree(Block(Part(doc, r), p), entries)
    requires forall i :: 0 <= i < |entries| ==> entries[i].tag != t
    requires var block, k := Block(Part(doc, r), p), First(Block(Part(doc, r), p), HasTag(entries[|entries| - 1].tag));
             |entries| == 2 && k < |block| ==> k > 0 && block[k - 1].entry.tag != t
    ensures IsBlock(Put(doc, r, p, members, entries), r, p)
    ensures Reading(Block(Part(Put(doc, r, p, members, entries), r), p), t) == Reading(Block(Part(doc, r), p), t)
  {
    hide Part, Block, Edited, First, Reading, InsertedNodes, HasTag, Lacks;
    var block, tag := Block(Part(doc, r), p), entries[|entries| - 1].tag;
    var k := First(block, HasTag(tag));
    FirstBound(block, tag);
    LeavesLack(entries, t);
    if k < |block| {
      var i := k + 1 - |entries|;
      EditedStays(doc, r, p, i, k + 1, Leaves(entries));
      FirstHas(block, tag);
      SomeLack(block, i, k, t);
      ReadingExchanged(block, i, k + 1, Leaves(entries), t);
    } else {
      var at := Position(block, r == Header && p == [], members, entries[0].tag);
      var j, rest := InsertedBlock(doc, r, p, at, Leaves(entries));
      LacksAppend(Leaves(entries), rest, t);
      ReadingExchanged(block, at, j, Leaves(entries) + rest, t);
    }
  }

  lemma {:induction false} SomeLack(block: seq<Node>, i: nat, k: nat, tag: nat)
    requires i <= k <= i + 1 && k < |block| && block[i].entry.tag != tag && block[k].entry.tag != tag
    ensures Lacks(block[i..k + 1], tag)
  {
  }

  lemma {:induction false} FirstHas(block: seq<Node>, tag: nat)
    requires First(block, HasTag(tag)) < |block|
    ensures block[First(block, HasTag(tag))].entry.tag == tag
  {
  }

  /**
   * Setting a field, then reading: the field has the value, and every other field of the block that
   * was stored has the value it had.
   */
  lemma {:induction false} SetThenGet(segs: Segments, doc: Doc, r: Region, p: Path, members: Option<Members>, tag: nat,
                                      value: seq<Byte>, kind: FieldKind)
    requires IsBlock(doc, r, p) && KindAgrees(Block(Part(doc, r), p), tag, kind.DataWith?)
    requires kind.DataWith? ==> kind.length != tag
    ensures var segs' := segs.(arena := segs.arena + SetBytes(tag, value, kind));
            var doc' := Put(doc, r, p, members, SetEntries(tag, value, kind, |segs.arena|));
            && IsBlock(doc', r, p)
            && var e := Reading(Block(Part(doc', r), p), tag);
               e.Some? && Present(segs', e.value) && Value(segs', e.value) == value
  {
    hide Part, Block, Reading, Put, KindAgrees, Digits;
    var entries := SetEntries(tag, value, kind, |segs.arena|);
    PutReads(doc, r, p, members, entries);
    SpelledReads(segs, tag, entries[|entries| - 1].kind, value);
    var mid := segs.(arena := segs.arena + Spelled(tag, value));
    var segs' := segs.(arena := segs.arena + SetBytes(tag, value, kind));
    assert Extends(mid, segs') by {
      if kind.DataWith? {
        assert segs'.arena == mid.arena + Spelled(kind.length, Digits(|value|));
      }
    }
    ExtendsKeeps(mid, segs', entries[|entries| - 1]);
  }

  lemma {:induction false} OthersKeepValues(segs: Segments, doc: Doc, r: Region, p: Path, members: Option<Members>,
                                            tag: nat, value: seq<Byte>, kind: FieldKind, t: nat)
    requires IsBlock(doc, r, p) && KindAgrees(Block(Part(doc, r), p), tag, kind.DataWith?)
    requires t != tag && (kind.DataWith? ==> kind.length != t)
    requires var block := Block(Part(doc, r), p);
             var k := First(block, HasTag(tag));
             kind.DataWith? && k < |block| ==> k > 0 && block[k - 1].entry.tag != t
    ensures var segs' := segs.(arena := segs.arena + SetBytes(tag, value, kind));
            var doc' := Put(doc, r, p, members, SetEntries(tag, value, kind, |segs.arena|));
            && IsBlock(doc', r, p)
            && var e, e' := Reading(Block(Part(doc, r), p), t), Reading(Block(Part(doc', r), p), t);
               && e' == e
               && (e.Some? && Present(segs, e.value) ==> Present(segs', e.value) && Value(segs', e.value) == Value(segs, e.value))
  {
    hide Part, Block, Reading, Put, First, HasTag, Digits;
    PutLeavesOthers(doc, r, p, members, SetEntries(tag, value, kind, |segs.arena|), t);
    var segs' := segs.(arena := segs.arena + SetBytes(tag, value, kind));
    var e := Reading(Block(Part(doc, r), p), t);
    if e.Some? && Present(segs, e.value) {
      ExtendsKeeps(segs, segs', e.value);
    }
  }

  lemma {:induction false} ReadsLack(ns: seq<Node>, tag: nat)
    requires Reading(ns, tag) == None
    ensures Lacks(ns, tag)
  {
    hide HasTag;
    forall i | 0 <= i < |ns| ensures !Passes(HasTag(tag), ns[i]) {
    }
  }

  /**
   * Removing a field, then reading: the field is gone exactly when the block had no second field of
   * that tag, and every tag that did not go with it reads as it did.
   */
  lemma {:induction false} RemovedReads(doc: Doc, r: Region, p: Path, tag: nat, t: nat)
    requires IsBlock(doc, r, p) && Paired(Block(Part(doc, r), p))
    requires First(Block(Part(doc, r), p), HasTag(tag)) < |Block(Part(doc, r), p)|
    ensures var block, doc' := Block(Part(doc, r), p), Without(doc, r, p, tag);
            var (i, j) := Whole(block, First(block, HasTag(tag)));
            && IsBlock(doc', r, p)
            && (Reading(Block(Part(doc', r), p), tag) == None <==> Lacks(block[j..], tag))
            && (Lacks(block[i..j], t) ==> Reading(Block(Part(doc', r), p), t) == Reading(block, t))
  {
    hide Part, Block, Edited, First, HasTag, Reading, Lacks;
    var block := Block(Part(doc, r), p);
    var (i, j) := Whole(block, First(block, HasTag(tag)));
    EditedStays(doc, r, p, i, j, []);
    BeforeFirst(block, tag, i);
    LacksReads(block[..i], tag);
    assert Exchanged(block, i, j, []) == block[..i] + block[j..];
    ReadingAppend(block[..i], block[j..], tag);
    if Lacks(block[j..], tag) {
      LacksReads(block[j..], tag);
    } else if Reading(block[j..], tag) == None {
      ReadsLack(block[j..], tag);
    }
    if Lacks(block[i..j], t) {
      NothingLacks(t);
      ReadingExchanged(block, i, j, [], t);
    }
  }

  lemma {:induction false} NothingLacks(tag: nat)
    ensures Lacks([], tag)
  {
  }

  /**
   * A field can be set if and only if it is not one that the message derives (BeginString, BodyLength,
   * CheckSum, MsgType, a count or a Length), and its value is not empty and, unless it is data, has no
   * delimiter in it.
   */
  lemma {:induction false} CanBeSetWhen(tag: nat, value: seq<Byte>, kind: FieldKind, isGroup: bool)
    ensures SetFault(tag, value, kind, isGroup).None?
            <==> && tag !in {8, 9, 10, 35} && !isGroup && !kind.LengthOf?
                 && |value| > 0 && (kind.DataWith? || forall i :: 0 <= i < |value| ==> value[i] != 1)
    ensures SetFault(tag, value, kind, isGroup) == Some(Derived) <==> tag in {8, 9, 10, 35} || isGroup || kind.LengthOf?
  {
    assert SOH in value <==> exists i :: 0 <= i < |value| && value[i] == 1;
  }
}
