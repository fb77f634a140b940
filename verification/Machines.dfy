/**
 * What the stack machine does not depend on (message/parse.rs): it looks at tags and kinds, and at
 * the numbers of the fields that open groups, so fields whose bytes are elsewhere are laid out alike.
 */
module Machines {
  import opened Tape
  import opened Numerals
  import opened Storage
  import opened Groups
  import opened Parsing

  // ---------------------------------------------------------------------
  // Fields stay
  // ---------------------------------------------------------------------

  /** Open groups are groups, and their instances are instances. */
  predicate Solid(m: Machine) {
    forall k :: 0 <= k < |m.stack| ==>
      && m.stack[k].entry < |m.tape| && m.tape[m.stack[k].entry].kind.Group?
      && (m.stack[k].instance.Some? ==>
            m.stack[k].instance.value < |m.tape| && m.tape[m.stack[k].instance.value].kind.Instance?)
  }

  /** Fields are where they were; other entries are still of their kind. */
  predicate Keeps(a: seq<Entry>, b: seq<Entry>) {
    |a| <= |b| && forall k :: 0 <= k < |a| ==> b[k].kind == a[k].kind && (a[k].IsField() ==> b[k] == a[k])
  }

  lemma {:induction false} KeepsOn(a: seq<Entry>, b: seq<Entry>, c: seq<Entry>)
    requires Keeps(a, b) && Keeps(b, c)
    ensures Keeps(a, c)
  {
  }

  lemma {:induction false} InstanceClosedKeeps(m: Machine)
    requires m.Sound() && Solid(m)
    ensures Solid(InstanceClosed(m)) && Keeps(m.tape, InstanceClosed(m).tape)
  {
  }

  lemma {:induction false} GroupClosedKeeps(m: Machine)
    requires m.Sound() && Solid(m) && m.stack != [] && GroupClosed(m).Ok?
    ensures Solid(GroupClosed(m).value) && Keeps(m.tape, GroupClosed(m).value.tape)
  {
    InstanceClosedKeeps(m);
  }

  lemma {:induction false} InstanceStartedKeeps(m: Machine)
    requires m.Sound() && Solid(m) && m.stack != [] && InstanceStarted(m).Ok?
    ensures Solid(InstanceStarted(m).value) && Keeps(m.tape, InstanceStarted(m).value.tape)
  {
    InstanceClosedKeeps(m);
  }

  lemma {:induction false} SettledKeeps(dict: Dict, m: Machine, tag: nat)
    requires m.Sound() && Solid(m) && Settled(dict, m, tag).Ok?
    ensures Solid(Settled(dict, m, tag).value) && Keeps(m.tape, Settled(dict, m, tag).value.tape)
    decreases |m.stack|
  {
    hide Solid, Keeps, GroupClosed, InstanceStarted;
    if m.stack == [] {
      KeepsSelf(m.tape);
    } else {
      var def := dict.groups(m.Innermost().group);
      if tag == def.delimiter {
        InstanceStartedKeeps(m);
      } else if tag in def.members {
        KeepsSelf(m.tape);
      } else {
        GroupClosedKeeps(m);
        var m' := GroupClosed(m).value;
        SettledKeeps(dict, m', tag);
        KeepsOn(m.tape, m'.tape, Settled(dict, m', tag).value.tape);
      }
    }
  }

  lemma {:induction false} KeepsSelf(a: seq<Entry>)
    ensures Keeps(a, a)
  {
  }

  /** The header is not over, or it is at least this long. */
  predicate HeaderHas(m: Machine, n: nat) {
    n <= |m.tape| && (m.region.Header? || m.bodyStart >= n)
  }

  lemma {:induction false} PlacedKeeps(dict: Dict, m: Machine, t: Token, n: nat)
    requires m.Sound() && Solid(m) && HeaderHas(m, n) && Placed(dict, m, t).Ok?
    ensures var m' := Placed(dict, m, t).value; Solid(m') && Keeps(m.tape, m'.tape) && HeaderHas(m', n)
  {
  }

  lemma {:induction false} EnteredKeeps(dict: Dict, m: Machine, tag: nat, n: nat)
    requires m.stack == [] && HeaderHas(m, n) && RegionEntered(dict, m, tag).Ok?
    ensures var m' := RegionEntered(dict, m, tag).value; Solid(m') && Keeps(m.tape, m'.tape) && HeaderHas(m', n)
  {
  }

  lemma {:induction false} PushedKeeps(dict: Dict, m: Machine, t: Token, n: nat)
    requires m.Sound() && Solid(m) && HeaderHas(m, n) && Pushed(dict, m, t).Ok?
    ensures var m' := Pushed(dict, m, t).value; Solid(m') && Keeps(m.tape, m'.tape) && HeaderHas(m', n)
  {
    hide Solid, Placed, RegionEntered, Settled;
    SettledKeeps(dict, m, t.entry.tag);
    var m1 := Settled(dict, m, t.entry.tag).value;
    if m1.stack != [] {
      PlacedKeeps(dict, m1, t, n);
    } else {
      EnteredKeeps(dict, m1, t.entry.tag, n);
      PlacedKeeps(dict, RegionEntered(dict, m1, t.entry.tag).value, t, n);
    }
  }

  lemma {:induction false} RanKeeps(dict: Dict, m: Machine, ts: seq<Token>, n: nat)
    requires m.Sound() && Solid(m) && HeaderHas(m, n) && Ran(dict, m, ts).Ok?
    ensures var m' := Ran(dict, m, ts).value; Solid(m') && Keeps(m.tape, m'.tape) && HeaderHas(m', n)
    decreases |ts|
  {
    hide Solid, Pushed, Keeps, HeaderHas;
    KeepsSelf(m.tape);
    if ts != [] {
      PushedKeeps(dict, m, ts[0], n);
      var m1 := Pushed(dict, m, ts[0]).value;
      RanKeeps(dict, m1, ts[1..], n);
      KeepsOn(m.tape, m1.tape, Ran(dict, m1, ts[1..]).value.tape);
    }
  }

  lemma {:induction false} ClosedKeeps(m: Machine, n: nat)
    requires m.Sound() && Solid(m) && HeaderHas(m, n) && ClosedTo(m, 0).Ok?
    ensures var m' := ClosedTo(m, 0).value; Solid(m') && Keeps(m.tape, m'.tape) && HeaderHas(m', n)
    decreases |m.stack|
  {
    hide Solid, Keeps, GroupClosed;
    KeepsSelf(m.tape);
    if m.stack != [] {
      GroupClosedKeeps(m);
      var m1 := GroupClosed(m).value;
      ClosedKeeps(m1, n);
      KeepsOn(m.tape, m1.tape, ClosedTo(m1, 0).value.tape);
    }
  }

  /** A field that the header starts with is still in it once the message has been parsed. */
  lemma {:induction false} HeaderKept(dict: Dict, m: Machine, ts: seq<Token>, n: nat)
    requires m.Sound() && Solid(m) && HeaderHas(m, n) && Ran(dict, m, ts).Ok? && ClosedTo(Ran(dict, m, ts).value, 0).Ok?
    ensures var m' := Finished(ClosedTo(Ran(dict, m, ts).value, 0).value); Keeps(m.tape, m'.tape) && m'.bodyStart >= n
  {
    hide Solid, Ran, ClosedTo, GapSlots;
    RanKeeps(dict, m, ts, n);
    var m1 := Ran(dict, m, ts).value;
    ClosedKeeps(m1, n);
    var m2 := ClosedTo(m1, 0).value;
    KeepsOn(m.tape, m1.tape, m2.tape);
    assert Keeps(m2.tape, Finished(m2).tape);
    KeepsOn(m.tape, m2.tape, Finished(m2).tape);
  }

  // ---------------------------------------------------------------------
  // Fields elsewhere
  // ---------------------------------------------------------------------

  /** The same entry: a field has the same value, wherever its bytes are; a count's text says nothing. */
  predicate SameEntry(segs: Segments, segs': Segments, e: Entry, e': Entry) {
    && e'.tag == e.tag && e'.kind == e.kind && e'.depth == e.depth
    && if !e.IsField() then e' == e
       else e.valOff > 0 ==> Present(segs, e) && Present(segs', e') && Value(segs', e') == Value(segs, e)
  }

  predicate SameTape(segs: Segments, segs': Segments, tape: seq<Entry>, tape': seq<Entry>) {
    |tape'| == |tape| && forall k :: 0 <= k < |tape| ==> SameEntry(segs, segs', tape[k], tape'[k])
  }

  predicate SameMachine(segs: Segments, segs': Segments, m: Machine, m': Machine) {
    SameTape(segs, segs', m.tape, m'.tape) && m' == m.(tape := m'.tape)
  }

  /** The same field; if it says how many instances a group has, the same number. */
  predicate SameToken(segs: Segments, segs': Segments, w: Token, t: Token) {
    && w.entry.IsField() && SameEntry(segs, segs', w.entry, t.entry)
    && (w.number.Some? ==> t.number == w.number)
  }

  predicate SameTokens(segs: Segments, segs': Segments, ws: seq<Token>, ts: seq<Token>) {
    |ts| == |ws| && forall i :: 0 <= i < |ws| ==> SameToken(segs, segs', ws[i], ts[i])
  }

  lemma {:induction false} SameUpdated(segs: Segments, segs': Segments, a: seq<Entry>, b: seq<Entry>, i: nat, len: nat,
                                       off: nat)
    requires SameTape(segs, segs', a, b) && i < |a| && !a[i].IsField()
    ensures SameTape(segs, segs', a[i := a[i].(len := len)], b[i := b[i].(len := len)])
    ensures SameTape(segs, segs', a[i := a[i].(len := len, off := off)], b[i := b[i].(len := len, off := off)])
  {
  }

  lemma {:induction false} SameLonger(segs: Segments, segs': Segments, a: seq<Entry>, b: seq<Entry>, x: seq<Entry>,
                                      y: seq<Entry>)
    requires SameTape(segs, segs', a, b) && SameTape(segs, segs', x, y)
    ensures SameTape(segs, segs', a + x, b + y)
  {
    hide SameEntry;
  }

  lemma {:induction false} SameItself(segs: Segments, segs': Segments, x: seq<Entry>)
    requires forall k :: 0 <= k < |x| ==> !x[k].IsField()
    ensures SameTape(segs, segs', x, x)
  {
  }

  lemma {:induction false} InstanceClosedSame(segs: Segments, segs': Segments, m: Machine, m': Machine)
    requires m.Sound() && Solid(m) && SameMachine(segs, segs', m, m') && m'.Sound()
    ensures SameMachine(segs, segs', InstanceClosed(m), InstanceClosed(m'))
  {
    hide SameTape;
    if m.stack != [] && m.Innermost().instance.Some? {
      var i := m.Innermost().instance.value;
      SameUpdated(segs, segs', m.tape, m'.tape, i, |m.tape| - i, 0);
      SameLengths(segs, segs', m.tape, m'.tape);
    }
  }

  lemma {:induction false} SameLengths(segs: Segments, segs': Segments, a: seq<Entry>, b: seq<Entry>)
    requires SameTape(segs, segs', a, b)
    ensures |a| == |b|
  {
  }

  /** Two outcomes that are the same. */
  predicate SameResult(segs: Segments, segs': Segments, r: Result<Machine>, r': Result<Machine>) {
    if r.Err? then r' == r else r'.Ok? && SameMachine(segs, segs', r.value, r'.value)
  }

  lemma {:induction false} GroupClosedSame(segs: Segments, segs': Segments, m: Machine, m': Machine)
    requires m.Sound() && Solid(m) && SameMachine(segs, segs', m, m') && m'.Sound() && m.stack != []
    ensures SameResult(segs, segs', GroupClosed(m), GroupClosed(m'))
  {
    hide SameTape, InstanceClosed;
    InstanceClosedSame(segs, segs', m, m');
    InstanceClosedKeeps(m);
    var f, tape, tape' := m.Innermost(), InstanceClosed(m).tape, InstanceClosed(m').tape;
    SameLengths(segs, segs', tape, tape');
    SameUpdated(segs, segs', tape, tape', f.entry, |tape| - f.entry, f.count);
  }

  lemma {:induction false} InstanceStartedSame(segs: Segments, segs': Segments, m: Machine, m': Machine)
    requires m.Sound() && Solid(m) && SameMachine(segs, segs', m, m') && m'.Sound() && m.stack != []
    ensures SameResult(segs, segs', InstanceStarted(m), InstanceStarted(m'))
  {
    hide SameTape, InstanceClosed;
    InstanceClosedSame(segs, segs', m, m');
    var tape, tape' := InstanceClosed(m).tape, InstanceClosed(m').tape;
    SameLengths(segs, segs', tape, tape');
    var x := [INSTANCE.(depth := m.Innermost().depth + 1)];
    SameItself(segs, segs', x);
    SameLonger(segs, segs', tape, tape', x, x);
  }

  lemma {:induction false} SettledSame(segs: Segments, segs': Segments, dict: Dict, m: Machine, m': Machine, tag: nat)
    requires m.Sound() && Solid(m) && SameMachine(segs, segs', m, m') && m'.Sound()
    ensures SameResult(segs, segs', Settled(dict, m, tag), Settled(dict, m', tag))
    decreases |m.stack|
  {
    hide SameTape, GroupClosed, InstanceStarted, Solid;
    if m.stack != [] {
      var def := dict.groups(m.Innermost().group);
      if tag == def.delimiter {
        InstanceStartedSame(segs, segs', m, m');
      } else if tag !in def.members {
        GroupClosedSame(segs, segs', m, m');
        if GroupClosed(m).Ok? {
          GroupClosedKeeps(m);
          SettledSame(segs, segs', dict, GroupClosed(m).value, GroupClosed(m').value, tag);
        }
      }
    }
  }

  lemma {:induction false} EnteredSame(segs: Segments, segs': Segments, dict: Dict, m: Machine, m': Machine, tag: nat)
    requires SameMachine(segs, segs', m, m') && m.stack == []
    ensures SameResult(segs, segs', RegionEntered(dict, m, tag), RegionEntered(dict, m', tag))
  {
    hide SameTape;
    SameLengths(segs, segs', m.tape, m'.tape);
    GapSame(segs, segs');
    SameLonger(segs, segs', m.tape, m'.tape, GapSlots(), GapSlots());
  }

  lemma {:induction false} GapSame(segs: Segments, segs': Segments)
    ensures SameTape(segs, segs', GapSlots(), GapSlots())
  {
    SameItself(segs, segs', GapSlots());
  }

  /** A field that is placed, placed again from elsewhere. */
  lemma {:induction false} PlacedSame(segs: Segments, segs': Segments, dict: Dict, m: Machine, m': Machine, w: Token,
                                      t: Token)
    requires m.Sound() && m'.Sound() && SameMachine(segs, segs', m, m') && SameToken(segs, segs', w, t)
    requires Placed(dict, m, w).Ok?
    ensures SameResult(segs, segs', Placed(dict, m, w), Placed(dict, m', t))
  {
    hide SameTape;
    var d := m.Depth();
    var x, y, g := [w.entry.(depth := d)], [t.entry.(depth := d)], [GroupEntry(w.entry.tag).(depth := d)];
    SameOne(segs, segs', w, t, d);
    SameItself(segs, segs', g);
    SameLengths(segs, segs', m.tape, m'.tape);
    SameLonger(segs, segs', m.tape, m'.tape, x, y);
    SameLonger(segs, segs', m.tape, m'.tape, g, g);
  }

  lemma {:induction false} SameOne(segs: Segments, segs': Segments, w: Token, t: Token, d: nat)
    requires SameToken(segs, segs', w, t)
    ensures SameTape(segs, segs', [w.entry.(depth := d)], [t.entry.(depth := d)])
  {
  }

  lemma {:induction false} PushedSame(segs: Segments, segs': Segments, dict: Dict, m: Machine, m': Machine, w: Token,
                                      t: Token)
    requires m.Sound() && Solid(m) && m'.Sound() && SameMachine(segs, segs', m, m') && SameToken(segs, segs', w, t)
    requires Pushed(dict, m, w).Ok?
    ensures SameResult(segs, segs', Pushed(dict, m, w), Pushed(dict, m', t))
  {
    hide SameTape, Solid, Placed, RegionEntered, Settled;
    SettledSame(segs, segs', dict, m, m', w.entry.tag);
    var m1, m1' := Settled(dict, m, w.entry.tag).value, Settled(dict, m', w.entry.tag).value;
    if m1.stack != [] {
      PlacedSame(segs, segs', dict, m1, m1', w, t);
    } else {
      EnteredSame(segs, segs', dict, m1, m1', w.entry.tag);
      PlacedSame(segs, segs', dict, RegionEntered(dict, m1, w.entry.tag).value, RegionEntered(dict, m1', w.entry.tag).value, w, t);
    }
  }

  lemma {:induction false} RanSame(segs: Segments, segs': Segments, dict: Dict, m: Machine, m': Machine, ws: seq<Token>,
                                   ts: seq<Token>)
    requires m.Sound() && Solid(m) && m'.Sound() && SameMachine(segs, segs', m, m') && SameTokens(segs, segs', ws, ts)
    requires Ran(dict, m, ws).Ok?
    ensures SameResult(segs, segs', Ran(dict, m, ws), Ran(dict, m', ts))
    ensures Solid(Ran(dict, m, ws).value)
    decreases |ws|
  {
    hide SameMachine, Solid, Pushed, SameToken;
    if ws != [] {
      PushedSame(segs, segs', dict, m, m', ws[0], ts[0]);
      PushedKeeps(dict, m, ws[0], 0);
      RanSame(segs, segs', dict, Pushed(dict, m, ws[0]).value, Pushed(dict, m', ts[0]).value, ws[1..], ts[1..]);
    }
  }

  lemma {:induction false} ClosedSame(segs: Segments, segs': Segments, m: Machine, m': Machine)
    requires m.Sound() && Solid(m) && m'.Sound() && SameMachine(segs, segs', m, m') && ClosedTo(m, 0).Ok?
    ensures SameResult(segs, segs', ClosedTo(m, 0), ClosedTo(m', 0))
    decreases |m.stack|
  {
    hide SameTape, Solid, GroupClosed;
    if m.stack != [] {
      GroupClosedSame(segs, segs', m, m');
      GroupClosedKeeps(m);
      ClosedSame(segs, segs', GroupClosed(m).value, GroupClosed(m').value);
    }
  }

  lemma {:induction false} FinishedSame(segs: Segments, segs': Segments, m: Machine, m': Machine)
    requires SameMachine(segs, segs', m, m')
    ensures SameMachine(segs, segs', Finished(m), Finished(m'))
  {
    hide SameTape;
    SameLengths(segs, segs', m.tape, m'.tape);
    GapSame(segs, segs');
    SameLonger(segs, segs', m.tape, m'.tape, GapSlots(), GapSlots());
  }

  /**
   * Fields that parse, parse wherever their bytes are, whatever numbers the fields that open no
   * group happen to be, and the tape that comes of it is the same, value for value.
   */
  lemma {:induction false} ParsedSame(segs: Segments, segs': Segments, dict: Dict, ws: seq<Token>, ts: seq<Token>)
    requires SameTokens(segs, segs', ws, ts) && Parsed(dict, ws).Ok?
    ensures SameResult(segs, segs', Parsed(dict, ws), Parsed(dict, ts))
  {
    assert Solid(EMPTY) && EMPTY.Sound() && SameMachine(segs, segs', EMPTY, EMPTY);
    hide SameMachine, Solid, Ran, ClosedTo, Finished;
    RanSame(segs, segs', dict, EMPTY, EMPTY, ws, ts);
    var m, m' := Ran(dict, EMPTY, ws).value, Ran(dict, EMPTY, ts).value;
    ClosedSame(segs, segs', m, m');
    FinishedSame(segs, segs', ClosedTo(m, 0).value, ClosedTo(m', 0).value);
  }
}
